/**
 * The user-provided service-account signing key asset of the installer's tls package.
 * It never creates a key: Load claims the asset only when the operator placed a
 * parseable RSA private key at tls/bound-service-account-signing-key.key, and then
 * always derives the companion .pub file from that key instead of reading one.
 */
module Tls {
  import opened Wrappers
  import opened Asset
  import opened KeyCodec

  /** The package's directory for TLS assets, relative to the install directory. */
  const TlsDir: string := "tls"

  const KeyName: string := "bound-service-account-signing-key.key"
  const PubName: string := "bound-service-account-signing-key.pub"

  /** Joins a directory and a file name whose parts are already clean. */
  function Join(dir: string, name: string): string
  {
    dir + "/" + name
  }

  /** Where the operator supplies the private key. */
  const KeyPath: string := Join(TlsDir, KeyName)

  /** Where the derived public key is written. */
  const PubPath: string := Join(TlsDir, PubName)

  /**
   * Whatever directory the TLS assets live in, the private key and its public companion
   * land on different paths, so the asset's two files never shadow each other.
   */
  lemma CompanionPathsDistinct(dir: string)
    ensures Join(dir, KeyName) != Join(dir, PubName)
  {
    var last := |dir| + |KeyName|;
    assert Join(dir, KeyName)[last] == KeyName[|KeyName| - 1] == 'y';
    assert Join(dir, PubName)[last] == PubName[|PubName| - 1] == 'b';
  }

  /** Why Load failed. Only the kind and the underlying cause are kept, not the message text. */
  datatype Error =
    | FetchFailed(cause: string)              // the fetcher's own error, passed on as it is
    | MalformedKey(cause: string)             // the key file is not an RSA private key
    | PublicKeyEncodingFailed(cause: string)  // the public part could not be serialised

  /**
   * What Load comes to: the asset is not claimed (no key supplied), loading failed,
   * or the asset is claimed with the files it now holds.
   */
  datatype LoadOutcome = Unclaimed | Failed(error: Error) | Claimed(files: seq<File>)
  {
    /** The error half of Load's (bool, error) pair; nil exactly when nothing failed. */
    function Err(): (e: Option<Error>)
      ensures e.Some? <==> Failed?
      ensures Failed? ==> e.value == error
    {
      if Failed? then Some(error) else None
    }
  }

  /** The bytes parse as an RSA private key whose public part serialises. */
  predicate KeyDerivable(codec: Codec, keyData: Bytes)
  {
    codec.pemToPrivateKey(keyData).Success? &&
    codec.publicKeyToPem(codec.pemToPrivateKey(keyData).value.publicKey).Success?
  }

  /** `pubData` is the serialised public part of the private key in `keyData`. */
  predicate PublicMatchesPrivate(codec: Codec, keyData: Bytes, pubData: Bytes)
  {
    match codec.pemToPrivateKey(keyData)
    case Success(key) => codec.publicKeyToPem(key.publicKey) == Success(pubData)
    case Failure(_) => false
  }

  /**
   * The decision Load takes once the key file has been fetched: which of its four exits
   * is taken, what it reports, and the files it installs on success.
   */
  function LoadFrom(fetched: FetchResult, codec: Codec): (o: LoadOutcome)
    // absence is the only way to decline without an error
    ensures o.Unclaimed? <==> fetched.NotExist?
    // any other fetch error is passed on unchanged, never read as absence
    ensures fetched.OtherErr? ==> o == Failed(FetchFailed(fetched.cause))
    ensures o.Failed? && o.error.FetchFailed? ==> fetched.OtherErr?
    // a present but unparseable key is a hard error
    ensures o.Failed? && o.error.MalformedKey? <==>
              fetched.Found? && codec.pemToPrivateKey(fetched.file.data).Failure?
    // a parsed key whose public part does not serialise is a hard error
    ensures o.Failed? && o.error.PublicKeyEncodingFailed? <==>
              fetched.Found? && codec.pemToPrivateKey(fetched.file.data).Success? &&
              !KeyDerivable(codec, fetched.file.data)
    // claimed exactly when fetch, parse and serialisation all succeed
    ensures o.Claimed? <==> fetched.Found? && KeyDerivable(codec, fetched.file.data)
    // then the files are the key file as fetched and its freshly derived public key
    ensures o.Claimed? ==>
              |o.files| == 2 && o.files[0] == fetched.file && o.files[1].filename == PubPath &&
              PublicMatchesPrivate(codec, o.files[0].data, o.files[1].data)
  {
    match fetched
    case NotExist => Unclaimed
    case OtherErr(cause) => Failed(FetchFailed(cause))
    case Found(keyFile) =>
      match codec.pemToPrivateKey(keyFile.data)
      case Failure(cause) => Failed(MalformedKey(cause))
      case Success(rsaKey) =>
        match codec.publicKeyToPem(rsaKey.publicKey)
        case Failure(cause) => Failed(PublicKeyEncodingFailed(cause))
        case Success(pubData) => Claimed([keyFile, File(PubPath, pubData)])
  }

  /**
   * A claimed asset holds two files on different paths, provided the fetched key file
   * carries the name it was fetched by.
   */
  lemma ClaimedPathsDistinct(fetched: FetchResult, codec: Codec)
    requires fetched.Found? ==> fetched.file.filename == KeyPath
    ensures LoadFrom(fetched, codec).Claimed? ==>
              LoadFrom(fetched, codec).files[0].filename != LoadFrom(fetched, codec).files[1].filename
  {
    CompanionPathsDistinct(TlsDir);
  }

  /** The asset: the files Load installed, or none. */
  class BoundSASigningKey {
    var FileList: seq<File>

    constructor ()
      ensures FileList == []
    {
      FileList := [];
    }

    /** This asset needs no other asset. */
    function Dependencies(): (deps: seq<AssetRef>)
      ensures |deps| == 0
    {
      []
    }

    /** Generating creates nothing and never fails; the key can only be supplied. */
    method Generate(parents: Parents) returns (err: Option<Error>)
      ensures err == None
    {
      err := None;
    }

    /** The files of the asset, exactly as stored. */
    function Files(): (files: seq<File>)
      reads this
      ensures files == FileList
    {
      FileList
    }

    /**
     * Reads the private key from the fetcher and checks it is a valid RSA key. The key
     * path is fetched exactly once and no other path is fetched, so the .pub file that
     * results depends on the private key alone. FileList changes only when the asset is
     * claimed.
     */
    method Load(f: FileFetcher, codec: Codec) returns (claimed: bool, err: Option<Error>)
      modifies this, f`requests
      ensures f.requests == old(f.requests) + [KeyPath]
      ensures claimed == LoadFrom(f.disk(KeyPath), codec).Claimed?
      ensures err == LoadFrom(f.disk(KeyPath), codec).Err()
      ensures FileList == if claimed then LoadFrom(f.disk(KeyPath), codec).files else old(FileList)
    {
      var fetched := f.FetchByName(KeyPath);
      var keyFile: File;
      match fetched {
        case NotExist =>
          return false, None;
        case OtherErr(cause) =>
          return false, Some(FetchFailed(cause));
        case Found(file) =>
          keyFile := file;
      }

      var rsaKey := codec.pemToPrivateKey(keyFile.data);
      if rsaKey.Failure? {
        return false, Some(MalformedKey(rsaKey.error));
      }
      var pubData := codec.publicKeyToPem(rsaKey.value.publicKey);
      if pubData.Failure? {
        return false, Some(PublicKeyEncodingFailed(pubData.error));
      }
      FileList := [keyFile, File(PubPath, pubData.value)];
      return true, None;
    }
  }

  /**
   * The operator supplied a valid key and a stale .pub on disk: the stale file is never
   * read, and the asset's .pub is the one derived from the key.
   */
  method StalePublicKeyIsRecomputed(codec: Codec, keyFile: File, stale: File)
    returns (claimed: bool, files: seq<File>)
    requires KeyDerivable(codec, keyFile.data)
    requires !PublicMatchesPrivate(codec, keyFile.data, stale.data)
    ensures claimed && |files| == 2 && files[0] == keyFile
    ensures files[1].filename == PubPath && files[1] != stale
    ensures PublicMatchesPrivate(codec, keyFile.data, files[1].data)
  {
    var f := new FileFetcher(name => if name == KeyPath then Found(keyFile)
                                     else if name == PubPath then Found(stale)
                                     else NotExist);
    var sk := new BoundSASigningKey();
    var err;
    claimed, err := sk.Load(f, codec);
    files := sk.Files();
  }

  /**
   * No key at the expected path: Load declines without an error, Generate fabricates
   * nothing, and the asset ends with no files.
   */
  method AbsentKeyYieldsNoFiles(disk: string -> FetchResult, codec: Codec)
    returns (claimed: bool, loadErr: Option<Error>, generateErr: Option<Error>, files: seq<File>)
    requires disk(KeyPath) == NotExist
    ensures !claimed && loadErr == None && generateErr == None && files == []
  {
    var f := new FileFetcher(disk);
    var sk := new BoundSASigningKey();
    claimed, loadErr := sk.Load(f, codec);
    if !claimed && loadErr == None {
      generateErr := sk.Generate(map[]);
    }
    files := sk.Files();
  }
}

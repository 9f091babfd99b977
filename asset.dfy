/**
 * The pieces of the asset framework that the signing-key asset uses:
 * files, the outcome of fetching a file by name, and the file fetcher.
 */
module Asset {

  newtype byte = x: int | 0 <= x < 256

  type Bytes = seq<byte>

  /** A file an asset reads or produces: a path relative to the install directory and its contents. */
  datatype File = File(filename: string, data: Bytes)

  /**
   * What fetching one file by name comes to. The fetcher's error is split three ways:
   * the file does not exist, reading it failed for some other reason, or it was read.
   */
  datatype FetchResult = NotExist | OtherErr(cause: string) | Found(file: File)

  /** Another asset, named; the argument of an asset's dependency list. */
  datatype AssetRef = AssetRef(name: string)

  /** The already generated or loaded parents handed to Generate, by asset name. */
  type Parents = map<string, seq<File>>

  /**
   * A file fetcher over a fixed snapshot of the install directory. `disk` says what a
   * fetch of each name yields; `requests` records, for the proofs only, every name
   * fetched so far, in order.
   */
  class FileFetcher {
    const disk: string -> FetchResult
    ghost var requests: seq<string>

    constructor (disk: string -> FetchResult)
      ensures this.disk == disk && requests == []
    {
      this.disk := disk;
      requests := [];
    }

    /** Fetches the file called `name`: the snapshot's answer, and the request is logged. */
    method FetchByName(name: string) returns (r: FetchResult)
      modifies this`requests
      ensures r == disk(name)
      ensures requests == old(requests) + [name]
    {
      r := disk(name);
      requests := requests + [name];
    }
  }
}

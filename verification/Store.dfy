/** The artifact store: immutable files in one directory, written under a temporary name and then moved into place. */
module Store {
  import opened Rounds
  import opened Wrappers

  type Bytes = seq<bv8>

  datatype StoreError = TooLarge

  /** The first n chunks put together. */
  function Content(chunks: seq<Bytes>, n: nat): Bytes
    requires n <= |chunks|
  {
    if n == 0 then [] else Content(chunks, n - 1) + chunks[n - 1]
  }

  lemma {:induction false} ContentGrows(chunks: seq<Bytes>, m: nat, n: nat)
    requires m <= n <= |chunks|
    ensures |Content(chunks, m)| <= |Content(chunks, n)|
    decreases n
  {
    if m < n {
      ContentGrows(chunks, m, n - 1);
    }
  }

  class ArtifactStore {
    const root: string
    const maxBytes: nat
    const hash: Bytes -> string
    var files: map<string, Bytes>
    var temporary: map<string, Bytes>

    constructor (root: string, maxBytes: nat, hash: Bytes -> string)
      ensures files == map[] && temporary == map[]
      ensures this.root == root && this.maxBytes == maxBytes && this.hash == hash
    {
      this.root, this.maxBytes, this.hash := root, maxBytes, hash;
      files, temporary := map[], map[];
    }

    function PathOf(objectId: string): string {
      root + "/" + objectId
    }

    function StoredAs(objectId: string, data: Bytes): Stored {
      Stored(objectId, PathOf(objectId), hash(data), |data|)
    }

    /**
     * Writes a stream under a new name. It becomes a file with all its chunks in order if they fit the limit; otherwise
     * nothing is left of it.
     */
    method PutStream(chunks: seq<Bytes>, objectId: string) returns (result: Result<Stored, StoreError>)
      requires PathOf(objectId) !in files && objectId !in temporary
      modifies this
      ensures temporary == old(temporary)
      ensures var data := Content(chunks, |chunks|);
        if |data| <= maxBytes then
          && result == Success(StoredAs(objectId, data)) && files == old(files)[PathOf(objectId) := data]
        else result == Failure(TooLarge) && files == old(files)
    {
      temporary := temporary[objectId := []];
      var size := 0;
      var n := 0;
      while n < |chunks|
        invariant n <= |chunks| && size == |Content(chunks, n)| <= maxBytes
        invariant files == old(files) && objectId in temporary && temporary[objectId] == Content(chunks, n)
        invariant temporary - {objectId} == old(temporary)
      {
        size := size + |chunks[n]|;
        if size > maxBytes {
          temporary := temporary - {objectId};
          ContentGrows(chunks, n + 1, |chunks|);
          return Failure(TooLarge);
        }
        temporary := temporary[objectId := temporary[objectId] + chunks[n]];
        n := n + 1;
      }
      var data := temporary[objectId];
      files := files[PathOf(objectId) := data];
      temporary := temporary - {objectId};
      return Success(Stored(objectId, PathOf(objectId), hash(data), size));
    }

    method PutBytes(data: Bytes, objectId: string) returns (result: Result<Stored, StoreError>)
      requires PathOf(objectId) !in files && objectId !in temporary
      modifies this
      ensures temporary == old(temporary)
      ensures if |data| <= maxBytes then
          && result == Success(StoredAs(objectId, data)) && files == old(files)[PathOf(objectId) := data]
        else result == Failure(TooLarge) && files == old(files)
    {
      if |data| > maxBytes {
        return Failure(TooLarge);
      }
      temporary := temporary[objectId := data];
      files := files[PathOf(objectId) := temporary[objectId]];
      temporary := temporary - {objectId};
      return Success(Stored(objectId, PathOf(objectId), hash(data), |data|));
    }

    /** Deleting a file that is not there is no error. */
    method Delete(path: string)
      modifies this`files
      ensures files == old(files) - {path}
    {
      files := files - {path};
    }
  }
}

/** The bounded streaming write that the storage quota rests on. */
module Storage {
  import opened Tables

  newtype byte = x: int | 0 <= x < 256

  /** InputTooLarge, or ExtractionFailed for an empty upload. */
  datatype StreamError = TooLarge | Empty | StagingExists

  /** The reads of a stream: blocks up to the first empty one, which is the end of the file. */
  function Content(blocks: seq<seq<byte>>): seq<byte> {
    if blocks == [] || blocks[0] == [] then [] else blocks[0] + Content(blocks[1..])
  }

  /** What the size check makes of a file of n bytes. */
  function Verdict(n: nat, maxBytes: int): Option<StreamError> {
    if n == 0 then Some(Empty) else if n > maxBytes then Some(TooLarge) else None
  }

  lemma ContentOfPrefix(blocks: seq<seq<byte>>, i: nat)
    requires i < |blocks| && forall j :: 0 <= j <= i ==> blocks[j] != []
    ensures Content(blocks[..i + 1]) == Content(blocks[..i]) + blocks[i]
    ensures |Content(blocks)| >= |Content(blocks[..i + 1])|
  {
    if i == 0 {
      assert blocks[..1][1..] == [];
    } else {
      ContentOfPrefix(blocks[1..], i - 1);
      assert blocks[1..][..i] == blocks[..i + 1][1..];
      assert blocks[1..][..i - 1] == blocks[..i][1..];
    }
  }

  lemma ContentEnds(blocks: seq<seq<byte>>, i: nat)
    requires i <= |blocks| && (forall j :: 0 <= j < i ==> blocks[j] != [])
    requires i == |blocks| || blocks[i] == []
    ensures Content(blocks) == Content(blocks[..i])
  {
    if i > 0 {
      ContentEnds(blocks[1..], i - 1);
      assert blocks[1..][..i - 1] == blocks[..i][1..];
    }
  }

  class LocalStorage {
    /** File contents by path; (path, true) is the path's `.partial` staging file. */
    var files: map<(nat, bool), seq<byte>>

    constructor ()
      ensures files == map[]
    {
      files := map[];
    }

    /** `save_stream`: the file is stored, whole, exactly when it is non-empty and within the limit;
        otherwise the store is as it was, the staging file gone with the rest. */
    method SaveStream(path: nat, blocks: seq<seq<byte>>, maxBytes: int) returns (r: Result<nat, StreamError>)
      modifies this
      ensures (path, true) in old(files) ==> r == Err(StagingExists) && files == old(files) - {(path, true)}
      ensures (path, true) !in old(files) ==>
                var content := Content(blocks);
                if content == [] then r == Err(Empty) && files == old(files)
                else if |content| <= maxBytes then
                  r == Ok(|content|) && files == old(files)[(path, false) := content]
                else r == Err(TooLarge) && files == old(files)
    {
      if (path, true) in files {
        files := files - {(path, true)};
        return Err(StagingExists);
      }
      files := files[(path, true) := []];
      var size, i := 0, 0;
      while i < |blocks| && blocks[i] != []
        invariant 0 <= i <= |blocks| && forall j :: 0 <= j < i ==> blocks[j] != []
        invariant size == |Content(blocks[..i])| && (i > 0 ==> 0 < size <= maxBytes)
        invariant files == old(files)[(path, true) := Content(blocks[..i])]
      {
        var block := blocks[i];
        size := size + |block|;
        ContentOfPrefix(blocks, i);
        if size > maxBytes {
          files := files - {(path, true)};
          assert files == old(files);
          return Err(TooLarge);
        }
        files := files[(path, true) := files[(path, true)] + block];
        i := i + 1;
      }
      ContentEnds(blocks, i);
      if size == 0 {
        files := files - {(path, true)};
        assert files == old(files);
        return Err(Empty);
      }
      files := (files - {(path, true)})[(path, false) := files[(path, true)]];
      r := Ok(size);
    }
  }
}

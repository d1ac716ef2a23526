/** The in-memory store of imported blocks (internal/storage/inmemory/storage.go):
    four lists that imports append to, read back as copies, and a clear that
    empties the three measurement blocks but keeps the survey (inclinometry). */
module InMemoryStorage {
  import opened Wrappers
  import opened Models

  /** The error Go's methods return; they never return one. */
  datatype StoreError = StoreError(message: string)

  class Storage {
    var blockOneData: seq<TableOne>
    var blockTwoData: seq<TableTwo>
    var blockThreeData: seq<TableThree>
    var inclinometry: seq<TableFour>

    /** NewInMemoryBlocksStorage: all four lists empty. */
    constructor ()
      ensures blockOneData == [] && blockTwoData == [] && blockThreeData == [] && inclinometry == []
    {
      blockOneData := [];
      blockTwoData := [];
      blockThreeData := [];
      inclinometry := [];
    }

    method AddBlockOneData(data: seq<TableOne>) returns (err: Option<StoreError>)
      modifies this
      ensures blockOneData == old(blockOneData) + data
      ensures blockTwoData == old(blockTwoData) && blockThreeData == old(blockThreeData)
      ensures inclinometry == old(inclinometry)
      ensures err.None?
    {
      blockOneData := blockOneData + data;
      return None;
    }

    method AddBlockTwoData(data: seq<TableTwo>) returns (err: Option<StoreError>)
      modifies this
      ensures blockTwoData == old(blockTwoData) + data
      ensures blockOneData == old(blockOneData) && blockThreeData == old(blockThreeData)
      ensures inclinometry == old(inclinometry)
      ensures err.None?
    {
      blockTwoData := blockTwoData + data;
      return None;
    }

    method AddBlockThreeData(data: seq<TableThree>) returns (err: Option<StoreError>)
      modifies this
      ensures blockThreeData == old(blockThreeData) + data
      ensures blockOneData == old(blockOneData) && blockTwoData == old(blockTwoData)
      ensures inclinometry == old(inclinometry)
      ensures err.None?
    {
      blockThreeData := blockThreeData + data;
      return None;
    }

    /** Appends survey points; only the inclinometry list changes. */
    method AddBlockFourData(data: seq<TableFour>) returns (err: Option<StoreError>)
      modifies this
      ensures inclinometry == old(inclinometry) + data
      ensures blockOneData == old(blockOneData) && blockTwoData == old(blockTwoData)
      ensures blockThreeData == old(blockThreeData)
      ensures err.None?
    {
      inclinometry := inclinometry + data;
      return None;
    }

    /** A copy of the stored list: a value, so later changes on either side
        do not reach the other. */
    method GetAllBlockOneData() returns (data: seq<TableOne>, err: Option<StoreError>)
      ensures data == blockOneData && err.None?
    {
      data := blockOneData;
      err := None;
    }

    method GetAllBlockTwoData() returns (data: seq<TableTwo>, err: Option<StoreError>)
      ensures data == blockTwoData && err.None?
    {
      data := blockTwoData;
      err := None;
    }

    method GetAllBlockThreeData() returns (data: seq<TableThree>, err: Option<StoreError>)
      ensures data == blockThreeData && err.None?
    {
      data := blockThreeData;
      err := None;
    }

    /** Empties blocks one to three; the survey is kept. */
    method ClearAll() returns (err: Option<StoreError>)
      modifies this
      ensures blockOneData == [] && blockTwoData == [] && blockThreeData == []
      ensures inclinometry == old(inclinometry)
      ensures err.None?
    {
      blockOneData := [];
      blockTwoData := [];
      blockThreeData := [];
      return None;
    }

    method CountBlockOne() returns (n: int)
      ensures n == |blockOneData|
    {
      n := |blockOneData|;
    }

    method CountBlockTwo() returns (n: int)
      ensures n == |blockTwoData|
    {
      n := |blockTwoData|;
    }

    method CountBlockThree() returns (n: int)
      ensures n == |blockThreeData|
    {
      n := |blockThreeData|;
    }
  }

  /** Imports accumulate: two Block 1 imports are read back as the first
      file's records followed by the second's, the count grows by each size,
      and a clear leaves the count at zero and the survey in place. */
  method AccumulateThenClear(s: Storage, first: seq<TableOne>, second: seq<TableOne>)
    returns (before: seq<TableOne>, countBefore: int, countAfter: int)
    modifies s
    ensures before == old(s.blockOneData) + first + second
    ensures countBefore == |old(s.blockOneData)| + |first| + |second|
    ensures countAfter == 0
    ensures s.inclinometry == old(s.inclinometry)
  {
    var err := s.AddBlockOneData(first);
    err := s.AddBlockOneData(second);
    before, err := s.GetAllBlockOneData();
    countBefore := s.CountBlockOne();
    err := s.ClearAll();
    countAfter := s.CountBlockOne();
  }
}

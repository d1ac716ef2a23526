/** The earlier in-memory store over the Block* records
    (internal/storage/inmemory/store.go): three append-only lists, copied
    out on read and emptied together by ClearAll. */
module InMemoryBlockStore {
  import opened Wrappers
  import opened Models

  /** The error Go's methods return; they never return one. */
  datatype StoreError = StoreError(message: string)

  class InMemoryStore {
    var blockOneData: seq<BlockOne>
    var blockTwoData: seq<BlockTwo>
    var blockThreeData: seq<BlockThree>

    /** NewStore: three empty lists. */
    constructor ()
      ensures blockOneData == [] && blockTwoData == [] && blockThreeData == []
    {
      blockOneData := [];
      blockTwoData := [];
      blockThreeData := [];
    }

    method AddBlockOneData(data: seq<BlockOne>) returns (err: Option<StoreError>)
      modifies this
      ensures blockOneData == old(blockOneData) + data
      ensures blockTwoData == old(blockTwoData) && blockThreeData == old(blockThreeData)
      ensures err.None?
    {
      blockOneData := blockOneData + data;
      return None;
    }

    method AddBlockTwoData(data: seq<BlockTwo>) returns (err: Option<StoreError>)
      modifies this
      ensures blockTwoData == old(blockTwoData) + data
      ensures blockOneData == old(blockOneData) && blockThreeData == old(blockThreeData)
      ensures err.None?
    {
      blockTwoData := blockTwoData + data;
      return None;
    }

    method AddBlockThreeData(data: seq<BlockThree>) returns (err: Option<StoreError>)
      modifies this
      ensures blockThreeData == old(blockThreeData) + data
      ensures blockOneData == old(blockOneData) && blockTwoData == old(blockTwoData)
      ensures err.None?
    {
      blockThreeData := blockThreeData + data;
      return None;
    }

    /** A copy of the stored list: a value, so later changes on either side
        do not reach the other. */
    method GetAllBlockOneData() returns (data: seq<BlockOne>, err: Option<StoreError>)
      ensures data == blockOneData && err.None?
    {
      data := blockOneData;
      err := None;
    }

    method GetAllBlockTwoData() returns (data: seq<BlockTwo>, err: Option<StoreError>)
      ensures data == blockTwoData && err.None?
    {
      data := blockTwoData;
      err := None;
    }

    method GetAllBlockThreeData() returns (data: seq<BlockThree>, err: Option<StoreError>)
      ensures data == blockThreeData && err.None?
    {
      data := blockThreeData;
      err := None;
    }

    method ClearAll() returns (err: Option<StoreError>)
      modifies this
      ensures blockOneData == [] && blockTwoData == [] && blockThreeData == []
      ensures err.None?
    {
      blockOneData := [];
      blockTwoData := [];
      blockThreeData := [];
      return None;
    }

    method CountBlockOne() returns (n: int)
      ensures n == |blockOneData|
    {
      n := |blockOneData|;
    }

    method CountBlockTwo() returns (n: int)
      ensures n == |blockTwoData|
    {
      n := |blockTwoData|;
    }

    method CountBlockThree() returns (n: int)
      ensures n == |blockThreeData|
    {
      n := |blockThreeData|;
    }
  }

  /** Adding grows only the list added to, by the size of the data, and after a
      clear every count is zero. */
  method AddThenClear(s: InMemoryStore, data: seq<BlockTwo>)
    returns (countAfterAdd: int, otherAfterAdd: int, countsAfterClear: (int, int, int))
    modifies s
    ensures countAfterAdd == |old(s.blockTwoData)| + |data|
    ensures otherAfterAdd == |old(s.blockOneData)|
    ensures countsAfterClear == (0, 0, 0)
  {
    var err := s.AddBlockTwoData(data);
    countAfterAdd := s.CountBlockTwo();
    otherAfterAdd := s.CountBlockOne();
    err := s.ClearAll();
    var one := s.CountBlockOne();
    var two := s.CountBlockTwo();
    var three := s.CountBlockThree();
    countsAfterClear := (one, two, three);
  }
}

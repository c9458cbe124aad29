/** Modulo sharding of distributed/hash/modulo/modulo.go. */
module Modulo {
  import opened Base

  datatype Sharding = Sharding(len: uint32) {

    /** The shard of an id: the remainder of id by the shard count. Go panics
        on an integer division by zero, so the count must be positive. */
    function GetShardIndex(id: uint64): (r: uint64)
      requires len > 0
      ensures r as int < len as int
      ensures (id as int / len as int) * len as int + r as int == id as int
    {
      id % (len as uint64)
    }
  }

  function New(len: uint32): (s: Sharding)
    ensures s.len == len
  {
    Sharding(len)
  }

  lemma ShardExample()
    ensures New(3).GetShardIndex(10) == 1
  {
  }
}

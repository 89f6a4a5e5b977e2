/** The thread object, without its stack and saved registers. */
module Threads {
  import opened Model

  class Thread {
    const id: int
    var state: ThreadState
    var quantumCount: int
    var didUserBlock: bool

    constructor (id: int)
      ensures this.id == id && AsRecord() == Record(READY, 0, false)
    {
      this.id := id;
      state := READY;
      quantumCount := 0;
      didUserBlock := false;
    }

    ghost function AsRecord(): Record
      reads this
    {
      Record(state, quantumCount, didUserBlock)
    }

    method SetState(newState: ThreadState)
      modifies this`state
      ensures state == newState
    {
      state := newState;
    }

    method IncrementQuantumCount()
      modifies this`quantumCount
      ensures quantumCount == old(quantumCount) + 1
    {
      quantumCount := quantumCount + 1;
    }

    method SetBlockFlag(flag: bool)
      modifies this`didUserBlock
      ensures didUserBlock == flag
    {
      didUserBlock := flag;
    }
  }
}

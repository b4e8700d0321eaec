// The five positions of a thread inside Endpoint::send, and the semaphore
// tokens it holds at each (src/ipc/endpoint.cpp).
module SendProtocol {

  // About to wait on sem_empty, about to wait on mutex, holding both, done
  // copying, and about to post sem_full.
  datatype SendPc = Ready | HasSlot | InLock | Copied | Unlocked {

    // Holding the slot token with nothing copied in yet.
    function Unwritten(): nat { if HasSlot? || InLock? then 1 else 0 }

    // Message copied in, sem_full not yet posted.
    function Written(): nat { if Copied? || Unlocked? then 1 else 0 }

    // Inside the critical section.
    function Holding(): nat { if InLock? || Copied? then 1 else 0 }
  }
}

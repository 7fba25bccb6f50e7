/** The counters printed on exit; every back-end counts its kernel entries itself. */
module Counters {
  datatype Stats = Stats(
    accepted: nat, closed: nat, requests: nat, bytes: nat,
    readCalls: nat, writeCalls: nat, waitCalls: nat, eagain: nat,
    threadsSpawned: nat, syscalls: nat)

  const Zero := Stats(0, 0, 0, 0, 0, 0, 0, 0, 0, 0)
}

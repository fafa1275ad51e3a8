/** What one event amounts to when it is alone, nobody crashes and its handlers fail
    the first j times: the same numbers on every backend, whether the attempts are
    counted by a header, by the delivery count or by x-death. */
module Counters {

  function Tries(maxRetries: int): nat { if maxRetries < 1 then 1 else maxRetries }

  function Dispatched(j: nat, maxRetries: int): nat {
    if j < Tries(maxRetries) then j + 1 else Tries(maxRetries)
  }

  function DeadLettered(j: nat, maxRetries: int): nat {
    if j < Tries(maxRetries) then 0 else 1
  }
}

/** How single operations turn out, for the modules that quantify over every failure and every kill point. */
module Outcomes {
  import opened Prelude

  /** One rename, unlink or command that either has its effect or has none. */
  datatype Op = Works | Raises | Killed

  /** How a sequence of operations ends: it returns, it raises, or the process dies in it. */
  datatype Ending = Finished | Failed | Dead

  /** How an operation that stopped short ends its sequence. */
  function Stop(op: Op): (e: Ending)
    requires !op.Works?
    ensures e.Dead? <==> op.Killed?
    ensures !e.Finished?
  {
    if op.Raises? then Failed else Dead
  }
}

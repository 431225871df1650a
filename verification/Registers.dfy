/** The part of Dispatch's issue table that the sweeps and the pruning write. */
module Registers {
  import opened Outcomes
  import opened Workloads

  /** Dispatch's side: the issues at status/ready, held by this agent, and marked needs-human. */
  class Register {
    var ready: set<Ref>
    var held: set<Ref>
    var marked: set<Ref>

    constructor (ready: set<Ref>, held: set<Ref>, marked: set<Ref>)
      ensures this.ready == ready && this.held == held && this.marked == marked
    {
      this.ready, this.held, this.marked := ready, held, marked;
    }

    method ToReady(r: Ref, w: Write) returns (raised: bool)
      modifies this`ready
      ensures raised <==> w.reply == Raises
      ensures ready == old(ready) + (if w.landed then {r} else {})
    {
      if w.landed {
        ready := ready + {r};
      }
      raised := w.reply == Raises;
    }

    method Unmark(r: Ref, w: Write) returns (raised: bool)
      modifies this`marked
      ensures raised <==> w.reply == Raises
      ensures marked == old(marked) - (if w.landed then {r} else {})
    {
      if w.landed {
        marked := marked - {r};
      }
      raised := w.reply == Raises;
    }

    method Unclaim(r: Ref, w: Write) returns (raised: bool)
      modifies this`held
      ensures raised <==> w.reply == Raises
      ensures held == old(held) - (if w.landed then {r} else {})
    {
      if w.landed {
        held := held - {r};
      }
      raised := w.reply == Raises;
    }
  }
}

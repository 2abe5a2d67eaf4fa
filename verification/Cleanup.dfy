/** The cleanup stack, one-slot reply channels, and the record of what the code does to the world. */
module Cleanup {
  import opened Base
  import opened Tunnel

  /** Everything the daemon does outside its own fields, in order. */
  class World {
    var fx: seq<Effect>

    constructor ()
      ensures fx == []
    {
      fx := [];
    }

    method Do(e: Effect)
      modifies this
      ensures fx == old(fx) + [e]
    {
      fx := fx + [e];
    }
  }

  /** A named undo step; the only kind the daemon pushes stops a child. */
  datatype Entry = Entry(name: string, child: ChildId)

  /** What running a stack's entries does: the newest entry first. */
  function Stops(entries: seq<Entry>): seq<Effect> {
    if entries == [] then [] else Stops(entries[1..]) + [StopChild(entries[0].child)]
  }

  /** Last in, first out, and nothing left out. */
  lemma {:induction false} StopsAreLifo(entries: seq<Entry>, k: nat)
    requires k < |entries|
    ensures |Stops(entries)| == |entries|
    ensures Stops(entries)[k] == StopChild(entries[|entries| - 1 - k].child)
  {
    if |entries| == 1 {
    } else {
      StopsAreLifo(entries[1..], if k < |entries| - 1 then k else 0);
    }
  }

  class CleanupStack {
    var entries: seq<Entry>
    var ran: bool

    constructor ()
      ensures entries == [] && !ran
    {
      entries, ran := [], false;
    }

    method Push(name: string, child: ChildId)
      modifies this
      ensures entries == old(entries) + [Entry(name, child)] && ran == old(ran)
    {
      entries := entries + [Entry(name, child)];
    }

    /** Runs every entry, newest first, the first time; does nothing after that. */
    method Run(world: World)
      modifies this, world
      ensures ran
      ensures old(ran) ==> entries == old(entries) && world.fx == old(world.fx)
      ensures !old(ran) ==> entries == [] && world.fx == old(world.fx) + Stops(old(entries))
    {
      if ran {
        return;
      }
      ran := true;
      var es := entries;
      entries := [];
      var i := |es|;
      assert es[i..] == [];
      while i > 0
        invariant 0 <= i <= |es| && ran && entries == []
        invariant world.fx == old(world.fx) + Stops(es[i..])
      {
        i := i - 1;
        assert es[i..][1..] == es[i + 1..];
        world.Do(StopChild(es[i].child));
      }
      assert es[0..] == es;
    }
  }

  /** A reply channel with room for one value. Nobody but the actor sends on it. */
  class ReplyChan {
    const to: Option<ChanId>
    var buf: seq<ReplyCode>

    constructor (to: Option<ChanId>)
      ensures this.to == to && buf == []
    {
      this.to, buf := to, [];
    }

    /** Cannot block: the slot is free. */
    method Send(code: ReplyCode, world: World)
      requires buf == []
      modifies this, world
      ensures buf == [code]
      ensures world.fx == old(world.fx) + if to.Some? then [Reply(to.value, code)] else []
    {
      buf := [code];
      if to.Some? {
        world.Do(Reply(to.value, code));
      }
    }

    /** Cannot block: the slot is taken. */
    method Recv() returns (code: ReplyCode)
      requires |buf| == 1
      modifies this
      ensures buf == [] && old(buf) == [code]
    {
      code := buf[0];
      buf := [];
    }
  }
}

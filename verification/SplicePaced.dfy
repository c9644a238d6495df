/** A splice copy over shared buckets: its allowances are the grants of one flow among many. */
module SplicePaced {
  import opened Basics
  import opened Splice
  import L = RateLimit
  import R = RateRun

  /** What flow `c` had been granted. */
  function GrantedTo(net: R.Net, c: nat): nat
  {
    if c < |net.flows| then net.flows[c].granted else 0
  }

  /** A direction is polled any number of times, while other flows draw on the same buckets. If its
      allowances are what flow `c` was granted between two points of a run, the bytes that reach the
      socket meanwhile are at most two bursts, and rate times the time between and a millisecond, at
      each bucket of the flow. */
  method CopyWithin(d: Dir, polls: nat, before: seq<R.Event>, es: seq<R.Event>, c: nat, j: nat) returns (r: Poll<Io<nat>>)
    requires d.Valid() && !d.unlimited
    requires var end := R.Run(R.Run(R.EMPTY, before), es); c < |end.flows| && j < |end.flows[c].pacer|
    modifies d, d.kernel, d.counter
    ensures d.Valid() && old(d.kernel.delivered) <= d.kernel.delivered
    ensures var start := R.Run(R.EMPTY, before); var end := R.Run(start, es); var b := end.flows[c].pacer[j];
            d.kernel.granted - old(d.kernel.granted) == GrantedTo(end, c) - GrantedTo(start, c) ==>
              b < |end.buckets|
              && L.GIGA * (|d.kernel.delivered| - |old(d.kernel.delivered)|)
                   <= R.WindowAllowance(start, end, b) + L.GIGA * end.buckets[b].burst
  {
    r := Pending;
    var k := 0;
    while k < polls && r.Pending?
      invariant d.Valid() && old(d.kernel.delivered) <= d.kernel.delivered
      invariant d.amt - old(d.amt) <= d.kernel.granted - old(d.kernel.granted)
    {
      r := d.PollCopy();
      k := k + 1;
    }
    R.WindowTotal(before, es, c, j);
    hide R.Run, R.WindowAllowance;
  }
}

/** The splice copy: each direction moves a byte stream from one socket through a pipe to the
    other, resumable at every point where the kernel may say "not yet". */
module Splice {
  import opened Basics
  datatype Poll<+T> = Ready(value: T) | Pending

  datatype Io<+T> = Done(value: T) | Failed

  /** What the environment answers to one call: a size, "not yet", or an error. */
  datatype Answer = Size(n: nat) | NotYet | Fault

  datatype Call = Fresh | Reading | Granting | Waiting | Writing | Flushing | Closing

  class Counter {
    var value: nat

    constructor ()
      ensures value == 0
    {
      value := 0;
    }
  }

  /** One direction as the kernel sees it: a peer that sends `source` and then closes, a pipe, the
      bytes handed to the other socket, and a script of answers. Once the script has run out
      everything stays "not yet". */
  class Kernel {
    const source: seq<bv8>
    var consumed: nat
    var pipe: seq<bv8>
    var delivered: seq<bv8>
    var flushed: nat
    var closed: bool
    var granted: nat
    var script: seq<Answer>
    /** The call answered last, and its answer. */
    var call: Call
    var answer: Answer

    /** Nothing is lost, duplicated or reordered between the source, the pipe and the socket. */
    ghost predicate Conserved()
      reads this
    {
      && consumed <= |source|
      && source[..consumed] == delivered + pipe
      && flushed <= |delivered|
    }

    constructor (bytes: seq<bv8>, answers: seq<Answer>)
      ensures Conserved() && source == bytes && script == answers && consumed == 0 && pipe == [] && delivered == []
      ensures flushed == 0 && !closed && granted == 0 && call == Fresh
    {
      source, script := bytes, answers;
      consumed, pipe, delivered, flushed, closed, granted := 0, [], [], 0, false, 0;
      call, answer := Fresh, NotYet;
    }

    method Next(c: Call) returns (a: Answer)
      modifies this`script, this`call, this`answer
      ensures call == c && answer == a
      ensures old(script) == [] ==> a == NotYet && script == []
      ensures old(script) != [] ==> a == old(script)[0] && script == old(script)[1..]
    {
      if script == [] {
        a := NotYet;
      } else {
        a := script[0];
        script := script[1..];
      }
      call, answer := c, a;
    }

    /** Splice from the socket into the pipe: some bytes if there are any, 0 at the end. */
    method SpliceIn() returns (r: Poll<Io<nat>>)
      requires Conserved()
      modifies this`script, this`call, this`answer, this`consumed, this`pipe
      ensures Conserved() && call == Reading && Asked(old(script), script, answer)
      ensures r == if answer.NotYet? then Pending else if answer.Fault? then Ready(Failed) else Ready(Done(consumed - old(consumed)))
      ensures answer.Size? && consumed == old(consumed) ==> consumed == |source|
      ensures !answer.Size? ==> consumed == old(consumed)
      ensures consumed >= old(consumed) && |pipe| == |old(pipe)| + (consumed - old(consumed))
    {
      var a := Next(Reading);
      match a {
        case NotYet => r := Pending;
        case Fault => r := Ready(Failed);
        case Size(n) =>
          var k := Min(if n == 0 then 1 else n, |source| - consumed);
          assert source[..consumed + k] == source[..consumed] + source[consumed..consumed + k];
          pipe := pipe + source[consumed..consumed + k];
          consumed := consumed + k;
          r := Ready(Done(k));
      }
    }

    /** The pacer's allowance for `want` bytes, 0 when a bucket is dry. */
    method Grant(want: nat) returns (g: nat)
      modifies this`script, this`call, this`answer, this`granted
      ensures call == Granting && Asked(old(script), script, answer)
      ensures g == (if answer.Size? then Min(answer.n, want) else 0) && granted == old(granted) + g
    {
      var a := Next(Granting);
      g := if a.Size? then Min(a.n, want) else 0;
      granted := granted + g;
    }

    method TimerReady() returns (ready: bool)
      modifies this`script, this`call, this`answer
      ensures call == Waiting && Asked(old(script), script, answer)
      ensures ready == !answer.NotYet?
    {
      var a := Next(Waiting);
      ready := !a.NotYet?;
    }

    /** Splice at most `len` bytes from the pipe to the socket. */
    method SpliceOut(len: nat) returns (r: Poll<Io<nat>>)
      requires Conserved()
      modifies this`script, this`call, this`answer, this`delivered, this`pipe
      ensures Conserved() && call == Writing && Asked(old(script), script, answer)
      ensures r.Pending? <==> answer.NotYet?
      ensures r == Ready(Failed) <==> answer.Fault?
      ensures |pipe| <= |old(pipe)| && |delivered| + |pipe| == |old(delivered)| + |old(pipe)|
      ensures old(delivered) <= delivered
      ensures answer.Size? ==> r == Ready(Done(|delivered| - |old(delivered)|))
      ensures answer.Size? ==> |delivered| - |old(delivered)| == Min(answer.n, Min(len, |old(pipe)|))
      ensures !answer.Size? ==> pipe == old(pipe)
    {
      var a := Next(Writing);
      match a {
        case NotYet => r := Pending;
        case Fault => r := Ready(Failed);
        case Size(n) =>
          var k := Min(n, Min(len, |pipe|));
          assert delivered + pipe == (delivered + pipe[..k]) + pipe[k..];
          delivered := delivered + pipe[..k];
          pipe := pipe[k..];
          r := Ready(Done(k));
      }
    }

    method Flush() returns (r: Poll<Io<()>>)
      requires Conserved()
      modifies this`script, this`call, this`answer, this`flushed
      ensures Conserved() && call == Flushing && Asked(old(script), script, answer)
      ensures r.Pending? <==> answer.NotYet?
      ensures r == Ready(Failed) <==> answer.Fault?
      ensures flushed == if answer.Size? then |delivered| else old(flushed)
    {
      var a := Next(Flushing);
      match a {
        case NotYet => r := Pending;
        case Fault => r := Ready(Failed);
        case Size(_) =>
          flushed := |delivered|;
          r := Ready(Done(()));
      }
    }

    method Shutdown() returns (r: Poll<Io<()>>)
      modifies this`script, this`call, this`answer, this`closed
      ensures call == Closing && Asked(old(script), script, answer)
      ensures r.Pending? <==> answer.NotYet?
      ensures r == Ready(Failed) <==> answer.Fault?
      ensures closed == (old(closed) || answer.Size?)
    {
      var a := Next(Closing);
      match a {
        case NotYet => r := Pending;
        case Fault => r := Ready(Failed);
        case Size(_) =>
          closed := true;
          r := Ready(Done(()));
      }
    }
  }

  predicate Asked(before: seq<Answer>, after: seq<Answer>, a: Answer)
  {
    if before == [] then a == NotYet && after == [] else a == before[0] && after == before[1..]
  }

  /** Every answer makes progress. */
  predicate Willing(script: seq<Answer>)
  {
    forall i :: 0 <= i < |script| ==> script[i].Size? && script[i].n > 0
  }

  predicate Leftover(script: seq<Answer>, n: int)
  {
    Willing(script) && |script| >= n
  }

  /** Answers a direction may need for its bytes: three for each one to read (read, grant, write)
      and two for each one in the pipe. */
  function Work(k: Kernel): int
    reads k
  {
    3 * (|k.source| - k.consumed) + 2 * |k.pipe|
  }

  class Dir {
    const kernel: Kernel
    const counter: Counter
    const unlimited: bool
    var pos: nat
    var cap: nat
    var amt: nat
    var readDone: bool
    var needFlush: bool

    ghost predicate Valid()
      reads this, kernel
    {
      && kernel.Conserved()
      && pos <= cap && |kernel.pipe| == cap - pos
      && amt == |kernel.delivered|
      && (unlimited || amt <= kernel.granted)
      && (!needFlush ==> kernel.flushed == amt)
      && (readDone ==> kernel.consumed == |kernel.source|)
    }

    constructor (k: Kernel, c: Counter, free: bool)
      requires k.Conserved() && k.delivered == [] && k.pipe == []
      ensures Valid() && kernel == k && counter == c && unlimited == free && amt == 0 && !readDone
    {
      kernel, counter, unlimited := k, c, free;
      pos, cap, amt, readDone, needFlush := 0, 0, 0, false, false;
    }

    /** Answers left over after what the bytes need. */
    ghost function Slack(): int
      reads kernel
    {
      |kernel.script| - Work(kernel)
    }

    /** No byte goes out that the buckets have not granted since. */
    twostate predicate Paced()
      reads this, kernel
    {
      kernel.granted >= old(kernel.granted) && (unlimited || amt - old(amt) <= kernel.granted - old(kernel.granted))
    }

    /** What every step keeps: the counters move together, delivered bytes stay delivered, and
        willing answers are not wasted. */
    twostate predicate Onward()
      reads this, kernel, counter
    {
      && Valid()
      && kernel.closed == old(kernel.closed)
      && amt >= old(amt) && counter.value - old(counter.value) == amt - old(amt)
      && old(kernel.delivered) <= kernel.delivered
      && |kernel.script| <= |old(kernel.script)|
      && (Willing(old(kernel.script)) ==> Willing(kernel.script))
      && (Willing(old(kernel.script)) && old(Slack()) >= 0 ==> Slack() >= old(Slack()))
    }

    /** Asks for an allowance, or waits for the buckets; then moves at most that much. */
    method PutOnce() returns (stop: Option<Poll<Io<nat>>>)
      requires Valid() && pos < cap
      modifies this`pos, this`amt, this`needFlush, kernel, counter
      ensures Onward() && Paced() && kernel.consumed == old(kernel.consumed)
      ensures stop.None? ==> |kernel.script| < |old(kernel.script)|
      ensures stop.Some? ==> stop.value in {Pending, Ready(Failed)}
      ensures stop == Some(Pending) ==> kernel.answer.NotYet? && kernel.call in {Waiting, Writing}
      ensures stop == Some(Ready(Failed)) ==> kernel.call == Writing && (kernel.answer.Fault? || kernel.answer == Size(0))
      ensures Willing(old(kernel.script)) && old(Slack()) >= 0 ==> stop.None?
    {
      var want := cap - pos;
      var grant := want;
      if !unlimited {
        grant := kernel.Grant(want);
      }
      if grant == 0 {
        var ready := kernel.TimerReady();
        return if ready then None else Some(Pending);
      }
      stop := Put(grant);
    }

    /** Moves at most the granted bytes and counts what moved. */
    method Put(grant: nat) returns (stop: Option<Poll<Io<nat>>>)
      requires Valid() && 0 < grant <= cap - pos
      requires unlimited || amt + grant <= kernel.granted
      modifies this`pos, this`amt, this`needFlush, kernel, counter
      ensures Onward() && kernel.consumed == old(kernel.consumed)
      ensures kernel.granted == old(kernel.granted) && amt - old(amt) <= grant
      ensures stop.None? ==> |kernel.script| < |old(kernel.script)|
      ensures stop.Some? ==> stop.value in {Pending, Ready(Failed)}
      ensures stop == Some(Pending) ==> kernel.answer.NotYet? && kernel.call == Writing
      ensures stop == Some(Ready(Failed)) ==> kernel.call == Writing && (kernel.answer.Fault? || kernel.answer == Size(0))
      ensures Willing(old(kernel.script)) && old(kernel.script) != [] ==> stop.None? && Slack() > old(Slack())
    {
      var put := kernel.SpliceOut(grant);
      match put {
        case Pending => return Some(Pending);
        case Ready(Failed) => return Some(Ready(Failed));
        case Ready(Done(i)) =>
          if i == 0 {
            return Some(Ready(Failed));
          }
          pos := pos + i;
          amt := amt + i;
          counter.value := counter.value + i;
          needFlush := true;
          return None;
      }
    }

    /** Writes the pipe out, as far as the buckets grant and the socket takes it. `None` means the
        pipe is empty; otherwise the copy stops here for now, or fails. */
    method WriteOut() returns (stop: Option<Poll<Io<nat>>>)
      requires Valid()
      modifies this`pos, this`amt, this`needFlush, kernel, counter
      ensures Onward() && Paced() && kernel.consumed == old(kernel.consumed)
      ensures stop.None? ==> pos == cap
      ensures stop.None? && old(pos < cap) ==> |kernel.script| < |old(kernel.script)|
      ensures stop.Some? ==> stop.value in {Pending, Ready(Failed)}
      ensures stop == Some(Pending) ==> kernel.answer.NotYet? && kernel.call in {Waiting, Writing}
      ensures stop == Some(Ready(Failed)) ==> kernel.call == Writing && (kernel.answer.Fault? || kernel.answer == Size(0))
      ensures Willing(old(kernel.script)) && old(Slack()) >= 0 ==> stop.None?
    {
      while pos < cap
        invariant Onward() && Paced() && kernel.consumed == old(kernel.consumed)
        invariant |kernel.script| < |old(kernel.script)| || pos == old(pos)
        decreases |kernel.script|
      {
        stop := PutOnce();
        if stop.Some? {
          return;
        }
      }
      return None;
    }

    /** Fills the drained pipe from the reader. When the reader is silent, what was written is
        flushed before the direction goes to sleep. */
    method ReadIn() returns (stop: Option<Poll<Io<nat>>>)
      requires Valid() && pos == cap && !readDone
      modifies this`pos, this`cap, this`readDone, this`needFlush, kernel
      ensures Valid() && kernel.closed == old(kernel.closed) && kernel.delivered == old(kernel.delivered)
      ensures kernel.granted == old(kernel.granted) && amt == old(amt)
      ensures |kernel.script| <= |old(kernel.script)|
      ensures stop.None? ==> |kernel.script| < |old(kernel.script)|
      ensures stop.Some? ==> stop.value in {Pending, Ready(Failed)}
      ensures stop == Some(Pending) ==> kernel.answer.NotYet? || (kernel.call == Flushing && !needFlush)
      ensures stop == Some(Pending) && kernel.call == Reading ==> kernel.flushed == amt
      ensures stop == Some(Ready(Failed)) ==> kernel.answer.Fault?
      ensures Willing(old(kernel.script)) ==> Willing(kernel.script)
      ensures Willing(old(kernel.script)) && old(Spare()) >= 0 ==> stop.None? && Spare() >= old(Spare())
    {
      var got := kernel.SpliceIn();
      match got {
        case Ready(Done(n)) =>
          if n == 0 {
            readDone := true;
          } else {
            pos, cap := 0, n;
          }
          return None;
        case Ready(Failed) => return Some(Ready(Failed));
        case Pending =>
          if needFlush {
            var f := kernel.Flush();
            match f {
              case Pending => return Some(Pending);
              case Ready(Failed) => return Some(Ready(Failed));
              case Ready(Done(_)) => needFlush := false;
            }
          }
          return Some(Pending);
      }
    }

    /** Answers left over after the bytes, the read that sees the end, and the final flush. */
    ghost function Spare(): int
      reads this, kernel
    {
      Slack() - (if readDone then 1 else 2)
    }

    ghost predicate Finished()
      reads this, kernel
    {
      kernel.delivered == kernel.source && kernel.flushed == amt == |kernel.source|
    }

    /** One turn of the copy: read if drained, write out, and end if the source has. */
    method Turn() returns (r: Poll<Io<nat>>, stop: bool)
      requires Valid()
      modifies this, kernel, counter
      ensures Valid() && kernel.closed == old(kernel.closed)
      ensures amt >= old(amt) && counter.value - old(counter.value) == amt - old(amt)
      ensures Paced() && old(kernel.delivered) <= kernel.delivered
      ensures !stop ==> |kernel.script| < |old(kernel.script)|
      ensures stop && r.Ready? && r.value.Done? ==> r.value.value == amt && Finished()
      ensures stop && r.Pending? ==> kernel.answer.NotYet? || (kernel.call == Flushing && !needFlush)
      ensures stop && r.Pending? && kernel.call == Reading ==> kernel.flushed == amt
      ensures stop && r == Ready(Failed) ==> kernel.answer.Fault? || (kernel.call == Writing && kernel.answer == Size(0))
      ensures Willing(old(kernel.script)) && old(Spare()) >= 0 && stop ==> r == Ready(Done(|kernel.source|)) && Leftover(kernel.script, old(Spare()))
      ensures Willing(old(kernel.script)) && old(Spare()) >= 0 && !stop ==> Willing(kernel.script) && Spare() >= old(Spare())
    {
      if pos == cap && !readDone {
        var halt := ReadIn();
        if halt.Some? {
          return halt.value, true;
        }
      }
      var halt := WriteOut();
      if halt.Some? {
        return halt.value, true;
      }
      if readDone {
        r := Finish();
        return r, true;
      }
      return Pending, false;
    }

    method Finish() returns (r: Poll<Io<nat>>)
      requires Valid() && pos == cap && readDone
      modifies kernel
      ensures Valid() && kernel.closed == old(kernel.closed) && kernel.delivered == old(kernel.delivered)
      ensures kernel.granted == old(kernel.granted) && amt == old(amt)
      ensures r.Ready? && r.value.Done? ==> r.value.value == amt && Finished()
      ensures r.Pending? ==> kernel.answer.NotYet? && kernel.call == Flushing
      ensures r == Ready(Failed) ==> kernel.answer.Fault?
      ensures Willing(old(kernel.script)) && old(kernel.script) != [] ==> r == Ready(Done(|kernel.source|)) && Leftover(kernel.script, |old(kernel.script)| - 1)
    {
      var f := kernel.Flush();
      match f {
        case Pending => return Pending;
        case Ready(Failed) => return Ready(Failed);
        case Ready(Done(_)) => return Ready(Done(amt));
      }
    }

    /** Reads when the pipe is drained, writes while it is not, and finishes only when the source
        has ended and everything has gone out and been flushed. It never goes to sleep on a silent
        reader with unflushed bytes behind it. */
    method PollCopy() returns (r: Poll<Io<nat>>)
      requires Valid()
      modifies this, kernel, counter
      ensures Valid() && kernel.closed == old(kernel.closed)
      ensures amt >= old(amt) && counter.value - old(counter.value) == amt - old(amt)
      ensures Paced() && old(kernel.delivered) <= kernel.delivered
      ensures r.Ready? && r.value.Done? ==> r.value.value == amt && Finished()
      ensures r.Pending? ==> kernel.answer.NotYet? || (kernel.call == Flushing && !needFlush)
      ensures r.Pending? && kernel.call == Reading ==> kernel.flushed == amt
      ensures r == Ready(Failed) ==> kernel.answer.Fault? || (kernel.call == Writing && kernel.answer == Size(0))
      ensures Willing(old(kernel.script)) && old(Spare()) >= 0 ==> r == Ready(Done(|kernel.source|)) && Leftover(kernel.script, old(Spare()))
    {
      while true
        invariant Valid() && kernel.closed == old(kernel.closed)
        invariant amt >= old(amt) && counter.value - old(counter.value) == amt - old(amt)
        invariant Paced() && old(kernel.delivered) <= kernel.delivered
        invariant Willing(old(kernel.script)) && old(Spare()) >= 0 ==> Willing(kernel.script) && Spare() >= old(Spare())
        decreases |kernel.script|
      {
        var out, done := Turn();
        if done {
          return out;
        }
      }
    }
  }

  /** Both directions of one connection. A direction that ends, well or badly, shuts down the write
      side it fed, and its result is kept only once that shutdown went through. */
  class BidiSpliceCopy {
    const aToB: Dir
    const bToA: Dir
    var aToBDone: Option<Io<nat>>
    var bToADone: Option<Io<nat>>
    var aShutdown: bool
    var bShutdown: bool

    ghost predicate Apart()
    {
      aToB != bToA && aToB.kernel != bToA.kernel && aToB.counter != bToA.counter
    }

    ghost predicate Valid()
      reads this, aToB, bToA, aToB.kernel, bToA.kernel
    {
      Apart() && Settled(aToB, aToBDone, bShutdown) && Settled(bToA, bToADone, aShutdown)
    }

    constructor (forth: Dir, back: Dir)
      requires forth != back && forth.kernel != back.kernel && forth.counter != back.counter
      requires forth.Valid() && back.Valid() && !forth.kernel.closed && !back.kernel.closed
      ensures Valid() && aToB == forth && bToA == back && aToBDone.None? && bToADone.None?
    {
      aToB, bToA := forth, back;
      aToBDone, bToADone, aShutdown, bShutdown := None, None, false, false;
    }

    /** Advances one direction; `hold` means its shutdown is not through, `fault` that it failed. */
    method Side(d: Dir) returns (done: Option<Io<nat>>, shut: bool, hold: bool, fault: bool)
      requires Settled(d, None, false)
      modifies d, d.kernel, d.counter
      ensures Settled(d, done, shut) && !(hold && fault)
      ensures hold || fault ==> done.None? && d.kernel.call == Closing
      ensures fault ==> d.kernel.answer.Fault?
      ensures hold ==> d.kernel.answer.NotYet?
      ensures Counted(d, old(d.amt), old(d.counter.value), old(d.kernel.delivered), old(d.kernel.granted))
      ensures Willing(old(d.kernel.script)) && old(d.Spare()) >= 1 ==> done == Some(Done(|d.kernel.source|))
    {
      done, shut, hold, fault := None, false, false, false;
      var res := d.PollCopy();
      if res.Ready? {
        var s := d.kernel.Shutdown();
        match s {
          case Pending => hold := true;
          case Ready(Failed) => fault := true;
          case Ready(Done(_)) => shut, done := true, Some(res.value);
        }
      }
    }

    /** The answer for the two kept results: an error of either comes first, and one finished
        direction ends the copy at the other's current count. */
    function Verdict(): (r: Poll<Io<(nat, nat)>>)
      reads this, aToB, bToA
    {
      match (aToBDone, bToADone)
      case (Some(Done(x)), Some(Done(y))) => Ready(Done((x, y)))
      case (Some(Failed), _) => Ready(Failed)
      case (_, Some(Failed)) => Ready(Failed)
      case (Some(Done(x)), None) => Ready(Done((x, bToA.amt)))
      case (None, Some(Done(y))) => Ready(Done((aToB.amt, y)))
      case (None, None) => Pending
    }

    method PollBoth() returns (r: Poll<Io<(nat, nat)>>)
      requires Valid()
      modifies this, aToB, bToA, aToB.kernel, bToA.kernel, aToB.counter, bToA.counter
      ensures Valid()
      ensures Counted(aToB, old(aToB.amt), old(aToB.counter.value), old(aToB.kernel.delivered), old(aToB.kernel.granted))
      ensures Counted(bToA, old(bToA.amt), old(bToA.counter.value), old(bToA.kernel.delivered), old(bToA.kernel.granted))
      ensures old(aToBDone).Some? ==> aToBDone == old(aToBDone) && aToB.amt == old(aToB.amt)
      ensures old(bToADone).Some? ==> bToADone == old(bToADone) && bToA.amt == old(bToA.amt)
      ensures r.Ready? && r.value.Done? ==> r.value.value == (aToB.amt, bToA.amt) && (aToB.Finished() || bToA.Finished())
      ensures r.Ready? && r.value.Done? ==> aToBDone != Some(Failed) && bToADone != Some(Failed)
      ensures ShutdownSaid(aToB.kernel, r) || ShutdownSaid(bToA.kernel, r)
           || r == (if aToBDone == Some(Failed) || bToADone == Some(Failed) then Ready(Failed)
                    else if aToBDone.Some? || bToADone.Some? then Ready(Done((aToB.amt, bToA.amt)))
                    else Pending)
      ensures old(aToBDone).None? && Willing(old(aToB.kernel.script)) && old(aToB.Spare()) >= 1 ==> aToBDone == Some(Done(|aToB.kernel.source|))
      ensures old(bToADone).None? && Willing(old(bToA.kernel.script)) && old(bToA.Spare()) >= 1 ==>
                bToADone == Some(Done(|bToA.kernel.source|)) || ShutdownSaid(aToB.kernel, r)
    {
      if aToBDone.None? {
        var stop := Forth();
        if stop.Some? {
          return stop.value;
        }
      }
      if bToADone.None? {
        var stop := Back();
        if stop.Some? {
          return stop.value;
        }
      }
      r := Verdict();
    }

    method Forth() returns (stop: Option<Poll<Io<(nat, nat)>>>)
      requires Valid() && aToBDone.None?
      modifies this`aToBDone, this`bShutdown, aToB, aToB.kernel, aToB.counter
      ensures Valid()
      ensures Counted(aToB, old(aToB.amt), old(aToB.counter.value), old(aToB.kernel.delivered), old(aToB.kernel.granted))
      ensures stop.Some? ==> stop.value in {Pending, Ready(Failed)} && aToBDone.None?
      ensures stop.Some? ==> ShutdownSaid(aToB.kernel, stop.value)
      ensures Willing(old(aToB.kernel.script)) && old(aToB.Spare()) >= 1 ==> aToBDone == Some(Done(|aToB.kernel.source|))
    {
      var done, shut, hold, fault := Side(aToB);
      if fault {
        return Some(Ready(Failed));
      }
      if hold {
        return Some(Pending);
      }
      bShutdown, aToBDone := shut, done;
      return None;
    }

    method Back() returns (stop: Option<Poll<Io<(nat, nat)>>>)
      requires Valid() && bToADone.None?
      modifies this`bToADone, this`aShutdown, bToA, bToA.kernel, bToA.counter
      ensures Valid()
      ensures Counted(bToA, old(bToA.amt), old(bToA.counter.value), old(bToA.kernel.delivered), old(bToA.kernel.granted))
      ensures stop.Some? ==> stop.value in {Pending, Ready(Failed)} && bToADone.None?
      ensures stop.Some? ==> ShutdownSaid(bToA.kernel, stop.value)
      ensures Willing(old(bToA.kernel.script)) && old(bToA.Spare()) >= 1 ==> bToADone == Some(Done(|bToA.kernel.source|))
    {
      var done, shut, hold, fault := Side(bToA);
      if fault {
        return Some(Ready(Failed));
      }
      if hold {
        return Some(Pending);
      }
      aShutdown, bToADone := shut, done;
      return None;
    }
  }

  /** The last thing the kernel said was that a shutdown is not through, or failed, as `r` has it. */
  ghost predicate ShutdownSaid(k: Kernel, r: Poll<Io<(nat, nat)>>)
    reads k
  {
    k.call == Closing && ((r == Pending && k.answer.NotYet?) || (r == Ready(Failed) && k.answer.Fault?))
  }

  /** A direction with its kept result: the result is its exact count after a full delivery, and
      the fed socket is shut down exactly when a result is kept. */
  ghost predicate Settled(d: Dir, done: Option<Io<nat>>, shut: bool)
    reads d, d.kernel
  {
    && d.Valid()
    && shut == done.Some? == d.kernel.closed
    && (done.Some? && done.value.Done? ==> done.value.value == d.amt && d.Finished())
  }

  /** The live counter moved by exactly what was delivered, nothing delivered was taken back, and a
      paced direction delivered no more than it was granted. */
  ghost predicate Counted(d: Dir, amt: nat, count: nat, delivered: seq<bv8>, granted: nat)
    reads d, d.kernel, d.counter
  {
    d.amt >= amt && d.counter.value - count == d.amt - amt && delivered <= d.kernel.delivered
    && granted <= d.kernel.granted && (d.unlimited || d.amt - amt <= d.kernel.granted - granted)
  }
}

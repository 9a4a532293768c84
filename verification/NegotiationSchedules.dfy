/** Fair schedules exist: from any state of any run, delivering the messages under way in the order in
    which they were sent is fair. */
module NegotiationSchedules {
  import opened TimeSlots
  import opened Negotiation
  import opened NegotiationSafety
  import opened NegotiationLiveness

  /** A state, and the messages under way in the order of delivery. */
  datatype Line = Line(sys: Sys, queue: seq<Msg>)

  function Requests(n: nat, slot: TimeSlot): seq<Msg> {
    if n == 0 then [] else Requests(n - 1, slot) + [Request(n - 1, slot)]
  }

  lemma {:induction false} RequestsAreBroadcast(n: nat, slot: TimeSlot)
    ensures multiset(Requests(n, slot)) == Broadcast(n, slot)
  {
    if n > 0 {
      RequestsAreBroadcast(n - 1, slot);
    }
  }

  /** What a delivery puts under way. */
  ghost function Successors(c: Setup, s: Sys, m: Msg): seq<Msg> {
    match m
    case Request(to, wanted) =>
      if to < |c.parties| then [Response(to, c.parties[to].HandleRequest(wanted))] else [m]
    case Response(_, a) =>
      match c.OnAnswer(s.coord, a).asked
      case None => []
      case Some(slot) => Requests(|c.parties|, slot)
  }

  ghost function Head(l: Line): Event {
    if l.queue == [] then Idle else Deliver(l.queue[0])
  }

  ghost function Next(c: Setup, l: Line): Line {
    Line(Apply(c, l.sys, Head(l)),
         if l.sys.coord.stopped || l.queue == [] then l.queue else l.queue[1..] + Successors(c, l.sys, l.queue[0]))
  }

  ghost predicate LineOk(l: Line) {
    multiset(l.queue) == l.sys.net
  }

  lemma HeadDelivered(c: Setup, s: Sys, m: Msg)
    requires m in s.net && !s.coord.stopped
    ensures Apply(c, s, Deliver(m)).net == s.net - multiset{m} + multiset(Successors(c, s, m))
  {
    if m.Response? && c.OnAnswer(s.coord, m.answer).asked.Some? {
      RequestsAreBroadcast(|c.parties|, c.OnAnswer(s.coord, m.answer).asked.value);
    }
  }

  lemma LineKept(c: Setup, l: Line)
    requires LineOk(l)
    ensures LineOk(Next(c, l))
  {
    if !l.sys.coord.stopped && l.queue != [] {
      var first, rest := l.queue[0], l.queue[1..];
      assert l.queue == [first] + rest;
      assert multiset(rest) == l.sys.net - multiset{first};
      HeadDelivered(c, l.sys, first);
    }
  }

  /** The line after n deliveries. */
  ghost function After(c: Setup, l: Line, n: nat): Line {
    if n == 0 then l else Next(c, After(c, l, n - 1))
  }

  lemma {:induction false} AfterOk(c: Setup, l: Line, n: nat)
    requires LineOk(l)
    ensures LineOk(After(c, l, n))
  {
    if n > 0 {
      AfterOk(c, l, n - 1);
      LineKept(c, After(c, l, n - 1));
    }
  }

  /** The sequence of lines. */
  ghost predicate Lines(c: Setup, lines: nat -> Line) {
    forall n: nat :: LineStep(c, lines, n)
  }

  ghost predicate LineStep(c: Setup, lines: nat -> Line, n: nat) {
    lines(n + 1) == Next(c, lines(n)) && LineOk(lines(n))
  }

  lemma LinesFrom(c: Setup, l: Line) returns (lines: nat -> Line)
    requires LineOk(l)
    ensures Lines(c, lines) && lines(0) == l
  {
    lines := (n: nat) => After(c, l, n);
    forall n: nat
      ensures LineStep(c, lines, n)
    {
      AfterOk(c, l, n);
    }
  }

  lemma {:induction false} SomeOrder(net: multiset<Msg>) returns (queue: seq<Msg>)
    ensures multiset(queue) == net
    decreases |net|
  {
    if net == multiset{} {
      queue := [];
    } else {
      var m :| m in net;
      var rest := SomeOrder(net - multiset{m});
      queue := [m] + rest;
    }
  }

  /** The message at position p is delivered after p others. */
  lemma {:induction false} DeliveredInTurn(c: Setup, lines: nat -> Line, n: nat, p: nat) returns (k: nat)
    requires Lines(c, lines) && p < |lines(n).queue|
    ensures n <= k
    ensures lines(k).sys.coord.stopped || (lines(k).queue != [] && lines(k).queue[0] == lines(n).queue[p])
    decreases p
  {
    if p == 0 || lines(n).sys.coord.stopped {
      k := n;
    } else {
      assert LineStep(c, lines, n);
      assert lines(n + 1).queue[p - 1] == lines(n).queue[p];
      k := DeliveredInTurn(c, lines, n + 1, p - 1);
    }
  }

  // ----- from lines to schedules -----

  /** From step n0 on, the schedule delivers the messages in line. */
  ghost predicate Follows(sched': nat -> Event, n0: nat, lines: nat -> Line) {
    forall k: nat {:trigger lines(k)} :: sched'(n0 + k) == Head(lines(k))
  }

  /** The schedule up to step n0, then the messages in line. */
  lemma Continued(sched: nat -> Event, n0: nat, lines: nat -> Line) returns (sched': nat -> Event)
    ensures Follows(sched', n0, lines)
    ensures forall k: nat :: k < n0 ==> sched'(k) == sched(k)
    ensures forall k: nat :: n0 <= k ==> sched'(k).Idle? || sched'(k).Deliver?
  {
    sched' := (k: nat) => if k < n0 then sched(k) else Head(lines(k - n0));
    forall k: nat
      ensures sched'(n0 + k) == Head(lines(k))
    {
      assert n0 + k - n0 == k;
    }
  }

  lemma {:induction false} SamePrefix(c: Setup, sched: nat -> Event, sched': nat -> Event, n: nat)
    requires forall k: nat :: k < n ==> sched'(k) == sched(k)
    ensures At(c, sched', n) == At(c, sched, n)
  {
    if n > 0 {
      SamePrefix(c, sched, sched', n - 1);
    }
  }

  ghost predicate SameAt(run': nat -> Sys, n0: nat, lines: nat -> Line, k: nat) {
    run'(n0 + k) == lines(k).sys
  }

  ghost predicate StaySame(run': nat -> Sys, n0: nat, lines: nat -> Line, k: nat) {
    SameAt(run', n0, lines, k) ==> SameAt(run', n0, lines, k + 1)
  }

  lemma NextSame(c: Setup, sched': nat -> Event, run': nat -> Sys, n0: nat, lines: nat -> Line, k: nat)
    requires IsRun(c, sched', run') && Lines(c, lines) && Follows(sched', n0, lines)
    ensures StaySame(run', n0, lines, k)
  {
    RunSteps(c, sched', run', n0 + k);
    assert LineStep(c, lines, k);
    assert sched'(n0 + k) == Head(lines(k));
  }

  lemma {:induction false} SameStates(run': nat -> Sys, n0: nat, lines: nat -> Line, j: nat)
    requires SameAt(run', n0, lines, 0)
    requires forall k: nat :: StaySame(run', n0, lines, k)
    ensures SameAt(run', n0, lines, j)
  {
    if j > 0 {
      SameStates(run', n0, lines, j - 1);
      assert StaySame(run', n0, lines, j - 1);
    }
  }

  lemma RunFollows(c: Setup, sched': nat -> Event, run': nat -> Sys, n0: nat, lines: nat -> Line)
    requires IsRun(c, sched', run') && Lines(c, lines) && Follows(sched', n0, lines)
    requires run'(n0) == lines(0).sys
    ensures forall k: nat :: SameAt(run', n0, lines, k)
  {
    forall k: nat
      ensures StaySame(run', n0, lines, k)
    {
      NextSame(c, sched', run', n0, lines, k);
    }
    forall k: nat
      ensures SameAt(run', n0, lines, k)
    {
      SameStates(run', n0, lines, k);
    }
  }

  lemma LinesAreFair(c: Setup, sched': nat -> Event, run': nat -> Sys, n0: nat, lines: nat -> Line)
    requires Lines(c, lines)
    requires Follows(sched', n0, lines)
    requires forall k: nat :: SameAt(run', n0, lines, k)
    ensures FairFrom(sched', run', n0)
  {
    forall n: nat, m | n0 <= n && m in run'(n).net
      ensures Served(sched', run', n, m)
    {
      var i := n - n0;
      assert SameAt(run', n0, lines, i);
      assert LineStep(c, lines, i);
      assert m in multiset(lines(i).queue);
      var p :| 0 <= p < |lines(i).queue| && lines(i).queue[p] == m;
      var k := DeliveredInTurn(c, lines, i, p);
      assert LineStep(c, lines, k);
      assert SameAt(run', n0, lines, k);
      assert lines(k).queue != [] ==> lines(k).queue[0] in multiset(lines(k).queue);
      assert run'(n0 + k).coord.stopped || DeliveredAt(sched', run', n0 + k, m);
    }
  }

  /** From any step of any run on, there is a fair continuation that loses nothing and without connects. */
  lemma FairContinuation(c: Setup, sched: nat -> Event, n0: nat) returns (sched': nat -> Event, run': nat -> Sys)
    ensures IsRun(c, sched', run') && FairFrom(sched', run', n0)
    ensures forall k: nat :: k < n0 ==> sched'(k) == sched(k)
    ensures forall k: nat :: n0 <= k ==> sched'(k).Idle? || sched'(k).Deliver?
  {
    var s0 := At(c, sched, n0);
    var queue := SomeOrder(s0.net);
    var lines := LinesFrom(c, Line(s0, queue));
    sched' := Continued(sched, n0, lines);
    SamePrefix(c, sched, sched', n0);
    run' := (n: nat) => At(c, sched', n);
    RunFollows(c, sched', run', n0, lines);
    LinesAreFair(c, sched', run', n0, lines);
  }

  /** What is under way just before a fair continuation is served too, if nothing is lost in between. */
  lemma FairBefore(c: Setup, sched: nat -> Event, run: nat -> Sys, n: nat)
    requires IsRun(c, sched, run) && FairFrom(sched, run, n + 1) && !sched(n).Lose?
    ensures FairFrom(sched, run, n)
  {
    forall k: nat, m | n <= k && m in run(k).net
      ensures Served(sched, run, k, m)
    {
      if k > n {
        assert Served(sched, run, k, m);
      } else if sched(n) == Deliver(m) {
        assert DeliveredAt(sched, run, n, m);
      } else {
        RunSteps(c, sched, run, n);
        StaysUnderWay(c, run(n), sched(n), m);
        assert Served(sched, run, n + 1, m);
        var j: nat :| n + 1 <= j && (run(j).coord.stopped || DeliveredAt(sched, run, j, m));
        assert n <= j;
      }
    }
  }

  lemma StaysUnderWay(c: Setup, s: Sys, e: Event, m: Msg)
    requires m in s.net && e != Deliver(m) && !e.Lose?
    ensures m in Apply(c, s, e).net
  {
  }

  /** Every setup has a fair run that loses nothing. */
  lemma FairRunExists(c: Setup) returns (sched: nat -> Event, run: nat -> Sys)
    ensures IsRun(c, sched, run) && Lossless(sched) && Fair(sched, run)
  {
    sched, run := FairContinuation(c, (k: nat) => Connect, 1);
    FairBefore(c, sched, run, 0);
  }
}

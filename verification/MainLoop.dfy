/**
 The main loop on values: pacing of the processing rounds, and idle times over whole runs.
 */
module MainLoop {
  import opened Common
  import opened CursorQueue
  import opened Clients
  import opened Flattening
  import opened ServerModel
  import opened ClientSweeps
  import opened SocketPoll
  import opened ServerRuns

  // A reading of the clock.
  datatype TimeVal = TimeVal(sec: int, usec: int)

  const PROCESS_FREQ := 32
  const PERIOD: int := USECS_PER_SEC / PROCESS_FREQ

  // Differences of this many seconds or more are taken for an overflow.
  const MAX_SECS: int := LONG_MAX / USECS_PER_SEC

  function Micros(t: TimeVal): int {
    t.sec * USECS_PER_SEC + t.usec
  }

  // ----- Pacing -----

  predicate Overflows(last: TimeVal, t: TimeVal) {
    t.sec - last.sec + 1 > MAX_SECS || t.sec < last.sec
  }

  function TimeDiff(last: TimeVal, t: TimeVal): int {
    if Overflows(last, t) then 0
    else (t.sec - last.sec) * USECS_PER_SEC + (t.usec - last.usec)
  }

  // The lag at the time of the decision to process.
  function LagAt(lag: int, last: TimeVal, t: TimeVal): int {
    (if Overflows(last, t) then 1 else lag) + TimeDiff(last, t)
  }

  function SleepTime(lag: int): int {
    if 0 - lag > 0 then 0 - lag else 0
  }

  // The state that paces the loop, and the history of the times of the processing rounds.
  datatype Pace = Pace(t: TimeVal, lag: int, rounds: seq<int>)

  function Tock(p: Pace, t: TimeVal): Pace {
    var lag := LagAt(p.lag, p.t, t);
    if lag > 0 then Pace(t, -PERIOD, p.rounds + [Micros(t)]) else Pace(t, lag, p.rounds)
  }

  function PaceRun(p: Pace, clock: seq<TimeVal>): Pace
    decreases |clock|
  {
    if clock == [] then p else PaceRun(Tock(p, clock[0]), clock[1..])
  }

  // The clock never goes back, and no difference is taken for an overflow.
  ghost predicate Steady(last: TimeVal, clock: seq<TimeVal>)
    decreases |clock|
  {
    clock == [] || (Micros(last) <= Micros(clock[0]) && !Overflows(last, clock[0]) && Steady(clock[0], clock[1..]))
  }

  ghost predicate PaceOk(p: Pace) {
    && -PERIOD <= p.lag <= 0
    && (p.rounds != [] ==> p.lag == Micros(p.t) - p.rounds[|p.rounds| - 1] - PERIOD)
    && (forall i :: 0 <= i < |p.rounds| - 1 ==> p.rounds[i + 1] - p.rounds[i] > PERIOD)
  }

  // With a steady clock the lag stays between minus one period and 0, the loop never sleeps
  // longer than a period, and a round takes place exactly when more than a period has passed
  // since the last one.
  lemma {:induction false} PacingHolds(p: Pace, clock: seq<TimeVal>)
    requires PaceOk(p) && Steady(p.t, clock)
    ensures PaceOk(PaceRun(p, clock))
    ensures -31250 <= PaceRun(p, clock).lag <= 0 && 0 <= SleepTime(PaceRun(p, clock).lag) <= 31250
    decreases |clock|
  {
    if clock != [] {
      PacingHolds(Tock(p, clock[0]), clock[1..]);
    }
  }

  lemma RoundIffPeriodPassed(p: Pace, t: TimeVal)
    requires PaceOk(p) && p.rounds != [] && Steady(p.t, [t])
    ensures Tock(p, t).rounds != p.rounds <==> Micros(t) - p.rounds[|p.rounds| - 1] > 31250
  {
    assert Micros(p.t) <= Micros(t) && !Overflows(p.t, t);
    assert LagAt(p.lag, p.t, t) == Micros(t) - p.rounds[|p.rounds| - 1] - PERIOD;
  }

  // The loop sleeps just long enough: at the next reading of the clock a round is due if and only if
  // more than the sleep time has passed since the last reading. After a round it sleeps 31250.
  lemma SleepIsExact(p: Pace, t: TimeVal)
    requires -31250 <= p.lag <= 0 && !Overflows(p.t, t)
    ensures var passed := (t.sec - p.t.sec) * 1000000 + (t.usec - p.t.usec);
            && (Tock(p, t).rounds != p.rounds <==> passed > SleepTime(p.lag))
            && (Tock(p, t).rounds != p.rounds ==> SleepTime(Tock(p, t).lag) == 31250)
            && (Tock(p, t).rounds == p.rounds ==> SleepTime(Tock(p, t).lag) == SleepTime(p.lag) - passed)
  {
    var lag := LagAt(p.lag, p.t, t);
    assert lag > 0 ==> |Tock(p, t).rounds| == |p.rounds| + 1;
  }

  // A clock that goes back, or jumps by more seconds than a long has microseconds for, makes a round
  // due at once, in which no idle time is charged.
  lemma OverflowRunsARound(p: Pace, t: TimeVal)
    requires t.sec < p.t.sec || t.sec - p.t.sec >= 9223372036854
    ensures TimeDiff(p.t, t) == 0
    ensures Tock(p, t) == Pace(t, -31250, p.rounds + [t.sec * 1000000 + t.usec])
  {
  }

  // n rounds need more than n - 1 periods.
  lemma {:induction false} RoundsTakeTime(rounds: seq<int>)
    requires |rounds| > 1
    requires forall i :: 0 <= i < |rounds| - 1 ==> rounds[i + 1] - rounds[i] > PERIOD
    ensures rounds[|rounds| - 1] - rounds[0] > (|rounds| - 1) * PERIOD
  {
    if |rounds| > 2 {
      var init := rounds[..|rounds| - 1];
      forall i | 0 <= i < |init| - 1 ensures init[i + 1] - init[i] > PERIOD {
        assert init[i + 1] == rounds[i + 1] && init[i] == rounds[i];
      }
      RoundsTakeTime(init);
    }
  }

  // ----- Idle times -----

  // The whole daemon; since is the history of when each client was created or last had a message
  // processed, as the clock reading of the iteration in which that happened.
  datatype Daemon<C(==)> = Daemon(t: TimeVal, lag: int, srv: Server<C>, since: map<C, int>)

  datatype LoopInput<C> = LoopInput(now: TimeVal, poll: PollInput<C>, exec: Handler)

  // The first part of a round: the check for expired timeouts.
  ghost function Checked<C>(d: Daemon<C>, now: TimeVal): Server<C>
    requires Sound(d.srv)
  {
    SweepClients(d.srv, Tick(ToInt32(TimeDiff(d.t, now))))
  }

  ghost predicate IterationOk<C>(d: Daemon<C>, inp: LoopInput<C>)
    requires Inv(d.srv)
  {
    && Micros(d.t) <= Micros(inp.now)
    && StepOk(Checked(d, inp.now), Polling(inp.poll))
  }

  // Client c lived through the round from s by way of polled to r, without a message processed.
  ghost predicate StayedIdle<C>(s: Server<C>, polled: Server<C>, r: Server<C>, c: C) {
    && c in s.heap && c in polled.heap && c in r.heap
    && !(polled.heap[c].messages.items != [] && r.heap[c].messages.items == [])
  }

  ghost function Since<C>(s: Server<C>, polled: Server<C>, r: Server<C>, since: map<C, int>, now: int): map<C, int> {
    map c | c in r.heap :: if c in since && StayedIdle(s, polled, r, c) then since[c] else now
  }

  ghost function Iterate<C>(d: Daemon<C>, inp: LoopInput<C>): Daemon<C>
    requires Inv(d.srv) && IterationOk(d, inp)
  {
    var lag := LagAt(d.lag, d.t, inp.now);
    if lag > 0 then
      var checked := Checked(d, inp.now);
      var polled := Poll(checked, inp.poll);
      var parsed := SweepClients(polled, Work(inp.exec));
      Daemon(inp.now, -PERIOD, parsed, Since(d.srv, polled, parsed, d.since, Micros(inp.now)))
    else Daemon(inp.now, lag, d.srv, d.since)
  }

  // The idle time on record is never more than what the clock says.
  ghost predicate Timely<C>(heap: map<C, ClientState>, since: map<C, int>, now: int) {
    forall c :: c in heap ==> c in since && since[c] <= now && heap[c].elapsed <= now - since[c]
  }

  ghost predicate DaemonOk<C>(d: Daemon<C>) {
    Inv(d.srv) && Timely(d.srv.heap, d.since, Micros(d.t))
  }

  // Truncation to an int can only lose idle time.
  lemma TickIsBounded(last: TimeVal, now: TimeVal)
    requires Micros(last) <= Micros(now)
    ensures ToInt32(TimeDiff(last, now)) <= Micros(now) - Micros(last)
  {
  }

  lemma CheckedIsTimely<C>(d: Daemon<C>, now: TimeVal)
    requires DaemonOk(d) && Micros(d.t) <= Micros(now)
    ensures Inv(Checked(d, now))
    ensures Timely(Checked(d, now).heap, d.since, Micros(now))
    ensures Checked(d, now).heap.Keys <= d.srv.heap.Keys
  {
    var v := Tick(ToInt32(TimeDiff(d.t, now)));
    TickIsBounded(d.t, now);
    SweepClientsCloses(d.srv, v);
    ApplyKeepsInv(d.srv, Sweeping(v));
  }

  // What a poll does to idle times: nothing, and new clients start at 0.
  lemma PolledElapsed<C>(s: Server<C>, inp: PollInput<C>, c: C)
    requires Inv(s) && InputOk(s, inp) && c in Poll(s, inp).heap
    ensures Poll(s, inp).heap[c].elapsed == if c in s.heap then s.heap[c].elapsed else 0
  {
    PollCoverage(s, inp);
    if c in s.heap {
      var seen := Visited(s.open.items, Failing(s, inp));
      ClientHasOpenSlot(s, c);
      var k :| 0 <= k < |s.open.items| - 1 && ClientAt(s.open.items[k], s.pool) == Some(c);
      assert PolledClient(s, Poll(s, inp), inp, seen, s.open.items[k]);
      ReceiveAllKeepsStream(s.heap[c], Event(inp, s.pool[s.open.items[k]].socket).chunks);
    }
  }

  lemma ParsedElapsed<C>(s: Server<C>, exec: Handler, c: C)
    requires Inv(s) && c in SweepClients(s, Work(exec)).heap
    ensures c in s.heap
    ensures var cs := SweepClients(s, Work(exec)).heap[c];
            if s.heap[c].messages.items != [] && cs.messages.items == [] then cs.elapsed == 0
            else cs.elapsed == s.heap[c].elapsed
  {
    hide Sound, StreamOk;
    SweepClientsCloses(s, Work(exec));
    ProcessingKeepsStream(s.heap[c], exec);
  }

  // One iteration keeps the bound on idle times.
  lemma IterateKeepsOk<C>(d: Daemon<C>, inp: LoopInput<C>)
    requires DaemonOk(d) && IterationOk(d, inp)
    ensures DaemonOk(Iterate(d, inp))
  {
    hide Sound;
    if LagAt(d.lag, d.t, inp.now) > 0 {
      var checked := Checked(d, inp.now);
      var polled := Poll(checked, inp.poll);
      var parsed := SweepClients(polled, Work(inp.exec));
      CheckedIsTimely(d, inp.now);
      ApplyKeepsInv(checked, Polling(inp.poll));
      ApplyKeepsInv(polled, Sweeping(Work(inp.exec)));
      RoundIsTimely(d, inp);
    }
  }

  lemma ClientIsTimely<C>(before: Server<C>, checked: Server<C>, polled: Server<C>, parsed: Server<C>,
                          since: map<C, int>, now: int, c: C)
    requires Timely(checked.heap, since, now) && checked.heap.Keys <= before.heap.Keys
    requires c in parsed.heap && c in polled.heap
    requires polled.heap[c].elapsed == if c in checked.heap then checked.heap[c].elapsed else 0
    requires c in before.heap && c in polled.heap && c !in checked.heap ==> c !in since || since[c] <= now
    requires if polled.heap[c].messages.items != [] && parsed.heap[c].messages.items == []
             then parsed.heap[c].elapsed == 0 else parsed.heap[c].elapsed == polled.heap[c].elapsed
    ensures var m := Since(before, polled, parsed, since, now);
            c in m && m[c] <= now && parsed.heap[c].elapsed <= now - m[c]
  {
  }

  lemma RoundIsTimely<C>(d: Daemon<C>, inp: LoopInput<C>)
    requires DaemonOk(d) && IterationOk(d, inp)
    requires Inv(Checked(d, inp.now)) && Inv(Poll(Checked(d, inp.now), inp.poll))
    requires Timely(Checked(d, inp.now).heap, d.since, Micros(inp.now))
    requires Checked(d, inp.now).heap.Keys <= d.srv.heap.Keys
    ensures var polled := Poll(Checked(d, inp.now), inp.poll);
            var parsed := SweepClients(polled, Work(inp.exec));
            Timely(parsed.heap, Since(d.srv, polled, parsed, d.since, Micros(inp.now)), Micros(inp.now))
  {
    var checked := Checked(d, inp.now);
    var polled := Poll(checked, inp.poll);
    var parsed := SweepClients(polled, Work(inp.exec));
    forall c | c in parsed.heap
      ensures var m := Since(d.srv, polled, parsed, d.since, Micros(inp.now));
              c in m && m[c] <= Micros(inp.now) && parsed.heap[c].elapsed <= Micros(inp.now) - m[c]
    {
      ParsedElapsed(polled, inp.exec, c);
      PolledElapsed(checked, inp.poll, c);
      ClientIsTimely(d.srv, checked, polled, parsed, d.since, Micros(inp.now), c);
    }
  }

  ghost predicate LoopOk<C>(d: Daemon<C>, inputs: seq<LoopInput<C>>)
    requires DaemonOk(d)
    decreases |inputs|
  {
    inputs == [] ||
    (IterationOk(d, inputs[0]) && (IterateKeepsOk(d, inputs[0]); LoopOk(Iterate(d, inputs[0]), inputs[1..])))
  }

  ghost function Loop<C>(d: Daemon<C>, inputs: seq<LoopInput<C>>): (r: Daemon<C>)
    requires DaemonOk(d) && LoopOk(d, inputs)
    ensures DaemonOk(r)
    decreases |inputs|
  {
    if inputs == [] then d else IterateKeepsOk(d, inputs[0]); Loop(Iterate(d, inputs[0]), inputs[1..])
  }

  ghost function Start<C>(t: TimeVal, listening: int, n: nat): (d: Daemon<C>)
    requires n > 0
    ensures DaemonOk(d) && d.lag == 0 && d.t == t
  {
    Daemon(t, 0, Boot<C>(listening, n), map[])
  }

  // ----- The pace of the loop -----

  function Clock<C>(inputs: seq<LoopInput<C>>): seq<TimeVal> {
    seq(|inputs|, i requires 0 <= i < |inputs| => inputs[i].now)
  }

  function RoundOf<C>(d: Daemon<C>, inp: LoopInput<C>): seq<int> {
    if LagAt(d.lag, d.t, inp.now) > 0 then [Micros(inp.now)] else []
  }

  lemma IterateTocks<C>(d: Daemon<C>, inp: LoopInput<C>, rounds: seq<int>)
    requires Inv(d.srv) && IterationOk(d, inp)
    ensures Tock(Pace(d.t, d.lag, rounds), inp.now)
         == Pace(Iterate(d, inp).t, Iterate(d, inp).lag, rounds + RoundOf(d, inp))
  {
    hide Inv, SweepClients, Poll, Since, IterationOk;
    assert rounds + [] == rounds;
  }

  lemma PaceStep(p: Pace, clock: seq<TimeVal>)
    requires clock != []
    ensures PaceRun(p, clock) == PaceRun(Tock(p, clock[0]), clock[1..])
  {
  }

  // The times of the iterations that ran a round.
  ghost function Rounds<C>(d: Daemon<C>, inputs: seq<LoopInput<C>>): seq<int>
    requires DaemonOk(d) && LoopOk(d, inputs)
    decreases |inputs|
  {
    if inputs == [] then []
    else
      IterateKeepsOk(d, inputs[0]);
      RoundOf(d, inputs[0]) + Rounds(Iterate(d, inputs[0]), inputs[1..])
  }

  // The loop runs at the pace of PaceRun.
  lemma {:induction false} LoopPaces<C>(d: Daemon<C>, inputs: seq<LoopInput<C>>, rounds: seq<int>)
    requires DaemonOk(d) && LoopOk(d, inputs)
    ensures PaceRun(Pace(d.t, d.lag, rounds), Clock(inputs))
         == Pace(Loop(d, inputs).t, Loop(d, inputs).lag, rounds + Rounds(d, inputs))
    decreases |inputs|
  {
    hide Inv, Timely, IterationOk, Iterate, Tock, PaceRun, RoundOf;
    if inputs == [] {
      NoTicks(Pace(d.t, d.lag, rounds), Clock(inputs));
      assert rounds + [] == rounds;
    } else {
      IterateKeepsOk(d, inputs[0]);
      assert Clock(inputs)[0] == inputs[0].now && Clock(inputs)[1..] == Clock(inputs[1..]);
      PaceStep(Pace(d.t, d.lag, rounds), Clock(inputs));
      InvOf(d);
      IterateTocks(d, inputs[0], rounds);
      var next := Iterate(d, inputs[0]);
      LoopPaces(next, inputs[1..], rounds + RoundOf(d, inputs[0]));
      assert rounds + (RoundOf(d, inputs[0]) + Rounds(next, inputs[1..]))
          == (rounds + RoundOf(d, inputs[0])) + Rounds(next, inputs[1..]);
    }
  }

  lemma NoTicks(p: Pace, clock: seq<TimeVal>)
    requires clock == []
    ensures PaceRun(p, clock) == p
  {
  }

  lemma InvOf<C>(d: Daemon<C>)
    requires DaemonOk(d)
    ensures Inv(d.srv)
  {
  }

  // From the start of the loop, with a steady clock: the lag is never positive nor below minus one
  // period, so the loop never sleeps longer than a period; rounds are more than a period apart, so
  // n of them take more than n - 1 periods.
  lemma LoopIsPaced<C>(t: TimeVal, listening: int, n: nat, inputs: seq<LoopInput<C>>)
    requires n > 0 && LoopOk(Start<C>(t, listening, n), inputs) && Steady(t, Clock(inputs))
    ensures var d := Loop(Start<C>(t, listening, n), inputs);
            -31250 <= d.lag <= 0 && 0 <= SleepTime(d.lag) <= 31250
    ensures var rounds := Rounds(Start<C>(t, listening, n), inputs);
            && (forall i :: 0 <= i < |rounds| - 1 ==> rounds[i + 1] - rounds[i] > 31250)
            && (|rounds| > 1 ==> rounds[|rounds| - 1] - rounds[0] > (|rounds| - 1) * 31250)
  {
    hide Inv, Timely, Start, DaemonOk, Steady, Iterate, LoopOk, Loop, Rounds, PaceRun, PaceOk;
    var d := Start<C>(t, listening, n);
    LoopPaces(d, inputs, []);
    AtStart(t);
    PacingHolds(Pace(t, 0, []), Clock(inputs));
    assert [] + Rounds(d, inputs) == Rounds(d, inputs);
    PaceMeans(PaceRun(Pace(t, 0, []), Clock(inputs)));
  }

  lemma AtStart(t: TimeVal)
    ensures PaceOk(Pace(t, 0, []))
  {
  }

  lemma PaceMeans(p: Pace)
    requires PaceOk(p)
    ensures -31250 <= p.lag <= 0 && 0 <= SleepTime(p.lag) <= 31250
    ensures forall i :: 0 <= i < |p.rounds| - 1 ==> p.rounds[i + 1] - p.rounds[i] > 31250
    ensures |p.rounds| > 1 ==> p.rounds[|p.rounds| - 1] - p.rounds[0] > (|p.rounds| - 1) * 31250
  {
    if |p.rounds| > 1 { RoundsTakeTime(p.rounds); }
  }

  // ----- The order of a round -----

  // Timeouts come before reading: from a client that the check expires nothing is read any more.
  lemma ExpiredIsNotRead<C>(d: Daemon<C>, inp: LoopInput<C>, c: C)
    requires DaemonOk(d) && IterationOk(d, inp) && LagAt(d.lag, d.t, inp.now) > 0
    requires c in d.srv.heap && c !in Checked(d, inp.now).heap
    ensures var r := Iterate(d, inp).srv;
            c !in r.heap && c in r.closed && r.closed[c].received == d.srv.heap[c].received
  {
    hide Sound, StreamsOk, SweepClients, Poll, SweptSlots, PolledClient, Timely;
    var v := Tick(ToInt32(TimeDiff(d.t, inp.now)));
    CheckedIsTimely(d, inp.now);
    var checked := Checked(d, inp.now);
    SweepClientsCloses(d.srv, v);
    TickReadsNothing(d.srv.heap[c], ToInt32(TimeDiff(d.t, inp.now)));
    assert c in checked.closed && checked.closed[c].received == d.srv.heap[c].received;
    PollCoverage(checked, inp.poll);
    var polled := Poll(checked, inp.poll);
    assert c in polled.closed && polled.closed[c] == checked.closed[c];
    assert Inv(polled) by { ApplyKeepsInv(checked, Polling(inp.poll)); }
    assert c !in polled.heap by { ClosedIsNotLive(polled, c); }
    SweepClientsCloses(polled, Work(inp.exec));
  }

  lemma TickReadsNothing(cs: ClientState, tDiff: int)
    ensures VisitClient(Tick(tDiff), cs).received == cs.received
  {
  }

  lemma ClosedIsNotLive<C>(s: Server<C>, c: C)
    requires Inv(s) && c in s.closed
    ensures c !in s.heap
  {
  }

  // Reading comes before processing: at the end of a round nothing is pending for a client that the
  // last sweep visited, and all that was ever read from it has been run.
  lemma NothingPendingAfterRound<C>(d: Daemon<C>, inp: LoopInput<C>, c: C)
    requires DaemonOk(d) && IterationOk(d, inp) && LagAt(d.lag, d.t, inp.now) > 0
    requires Sound(Checked(d, inp.now)) && InputOk(Checked(d, inp.now), inp.poll)
    requires c in Iterate(d, inp).srv.heap
    ensures var polled := Poll(Checked(d, inp.now), inp.poll);
            var cs := Iterate(d, inp).srv.heap[c];
            c in Visited(polled.clients.items, Doomed(polled, Work(inp.exec))) ==>
              cs.messages.items == [] && cs.log == CommandsIn(cs.received)
  {
    hide Sound, SweepClients, Poll, SweptSlots, Timely, Progress, CommandsIn;
    CheckedIsTimely(d, inp.now);
    var polled := Poll(Checked(d, inp.now), inp.poll);
    assert Inv(polled) by { ApplyKeepsInv(Checked(d, inp.now), Polling(inp.poll)); }
    ApplyKeepsInv(polled, Sweeping(Work(inp.exec)));
    SweepClientsCloses(polled, Work(inp.exec));
    var r := SweepClients(polled, Work(inp.exec));
    if c in Visited(polled.clients.items, Doomed(polled, Work(inp.exec))) {
      SweptClient(polled, r, inp.exec, Visited(polled.clients.items, Doomed(polled, Work(inp.exec))), c);
      AllRun(r.heap[c]);
    }
  }

  lemma AllRun(cs: ClientState)
    requires StreamOk(cs) && cs.messages.items == []
    ensures cs.log == CommandsIn(cs.received)
  {
    assert ParseAll([]) == [];
  }

  lemma ExpiryIsDue<C>(d: Daemon<C>, now: TimeVal, c: C)
    requires DaemonOk(d) && Micros(d.t) <= Micros(now)
    ensures c in d.srv.heap && c !in Checked(d, now).heap ==>
              c in d.since && 0 < d.srv.heap[c].vars.timeout <= Micros(now) - d.since[c]
  {
    TickIsBounded(d.t, now);
    SweepClientsCloses(d.srv, Tick(ToInt32(TimeDiff(d.t, now))));
  }

  // In any run of the daemon with a clock that never goes back, whatever rounds are skipped and
  // whatever clients the sweeps skip, a client destroyed by the timeout check of the next
  // iteration has a timeout, and has been idle for at least that long.
  lemma TimeoutsAreNeverEarly<C>(t: TimeVal, listening: int, n: nat, inputs: seq<LoopInput<C>>, now: TimeVal, c: C)
    requires n > 0 && LoopOk(Start<C>(t, listening, n), inputs)
    requires Micros(Loop(Start<C>(t, listening, n), inputs).t) <= Micros(now)
    ensures var d := Loop(Start<C>(t, listening, n), inputs);
            c in d.srv.heap && c !in Checked(d, now).heap ==>
              && c in d.since
              && 0 < d.srv.heap[c].vars.timeout <= Micros(now) - d.since[c]
  {
    ExpiryIsDue(Loop(Start<C>(t, listening, n), inputs), now, c);
  }
}

/**
 The exact account of idle times over whole runs: what a record holds, and what it misses.
 */
module IdleTimes {
  import opened CursorQueue
  import opened Clients
  import opened ServerModel
  import opened ClientSweeps
  import opened SocketPoll
  import opened ServerRuns
  import opened MainLoop

  // The clock difference is not taken for an overflow and, when a round uses it, fits an int.
  predicate Exact<C>(d: Daemon<C>, inp: LoopInput<C>) {
    && !Overflows(d.t, inp.now)
    && (LagAt(d.lag, d.t, inp.now) > 0 ==> TimeDiff(d.t, inp.now) <= INT_MAX)
  }

  // Whether the check for expired timeouts visits client c.
  ghost predicate IsChecked<C>(d: Daemon<C>, now: TimeVal, c: C) {
    c in Visited(d.srv.clients.items, Doomed(d.srv, Tick(ToInt32(TimeDiff(d.t, now)))))
  }

  function Of<C(==)>(m: map<C, int>, c: C): int { if c in m then m[c] else 0 }

  // The time that goes missing from the record of each client: all of it in an iteration without a
  // round, and that of a check which skips the client. It starts over when idleness does.
  ghost function Missed<C>(d: Daemon<C>, missed: map<C, int>, inp: LoopInput<C>): map<C, int>
    requires DaemonOk(d) && IterationOk(d, inp)
  {
    var diff := TimeDiff(d.t, inp.now);
    if LagAt(d.lag, d.t, inp.now) > 0 then
      CheckedIsTimely(d, inp.now);
      var polled := Poll(Checked(d, inp.now), inp.poll);
      var parsed := SweepClients(polled, Work(inp.exec));
      map c | c in parsed.heap ::
        if StayedIdle(d.srv, polled, parsed, c) then Of(missed, c) + (if IsChecked(d, inp.now, c) then 0 else diff)
        else 0
    else
      map c | c in d.srv.heap :: Of(missed, c) + diff
  }

  ghost predicate Accounted<C>(heap: map<C, ClientState>, since: map<C, int>, missed: map<C, int>, now: int) {
    forall c :: c in heap ==> c in since && c in missed && heap[c].elapsed == now - since[c] - missed[c]
  }

  // The check adds the difference to the clients that it visits.
  lemma CheckedElapsed<C>(d: Daemon<C>, now: TimeVal, c: C)
    requires DaemonOk(d) && c in Checked(d, now).heap
    ensures c in d.srv.heap
    ensures Checked(d, now).heap[c].elapsed
         == d.srv.heap[c].elapsed + if IsChecked(d, now, c) then ToInt32(TimeDiff(d.t, now)) else 0
  {
    hide Sound, StreamsOk, SweptSlots, SweepClients;
    SweepClientsCloses(d.srv, Tick(ToInt32(TimeDiff(d.t, now))));
  }

  // A client that lives through a round was not expired by its check.
  lemma SurvivorWasChecked<C>(d: Daemon<C>, inp: LoopInput<C>, c: C)
    requires DaemonOk(d) && IterationOk(d, inp) && c in d.srv.heap
    requires Inv(Checked(d, inp.now)) && c in Poll(Checked(d, inp.now), inp.poll).heap
    ensures c in Checked(d, inp.now).heap
  {
    hide Sound, StreamsOk, SweptSlots, SweepClients, Poll, PolledClient;
    SweepClientsCloses(d.srv, Tick(ToInt32(TimeDiff(d.t, inp.now))));
    PollCoverage(Checked(d, inp.now), inp.poll);
  }

  // The account of one client over a round, from what each part of the round does to it.
  lemma ClientIsAccounted<C>(before: Server<C>, checked: Server<C>, polled: Server<C>, parsed: Server<C>, since: int,
                             missed: int, last: int, now: int, visited: bool, c: C)
    requires c in before.heap && c in checked.heap && c in polled.heap && c in parsed.heap
    requires before.heap[c].elapsed == last - since - missed
    requires checked.heap[c].elapsed == before.heap[c].elapsed + if visited then now - last else 0
    requires polled.heap[c].elapsed == checked.heap[c].elapsed
    requires StayedIdle(before, polled, parsed, c) ==> parsed.heap[c].elapsed == polled.heap[c].elapsed
    requires !StayedIdle(before, polled, parsed, c) ==> parsed.heap[c].elapsed == 0
    ensures parsed.heap[c].elapsed
         == if StayedIdle(before, polled, parsed, c) then now - since - (missed + if visited then 0 else now - last)
            else 0
  {
  }

  lemma ExactDiff<C>(d: Daemon<C>, inp: LoopInput<C>)
    requires Exact(d, inp) && Micros(d.t) <= Micros(inp.now) && LagAt(d.lag, d.t, inp.now) > 0
    ensures ToInt32(TimeDiff(d.t, inp.now)) == TimeDiff(d.t, inp.now) == Micros(inp.now) - Micros(d.t)
  {
  }

  lemma KnownElapsed<C>(d: Daemon<C>, since: int, missed: int, inp: LoopInput<C>, c: C)
    requires DaemonOk(d) && IterationOk(d, inp) && Exact(d, inp) && LagAt(d.lag, d.t, inp.now) > 0
    requires c in d.srv.heap && d.srv.heap[c].elapsed == Micros(d.t) - since - missed
    requires Inv(Checked(d, inp.now)) && Inv(Poll(Checked(d, inp.now), inp.poll))
    requires c in SweepClients(Poll(Checked(d, inp.now), inp.poll), Work(inp.exec)).heap
    ensures var polled := Poll(Checked(d, inp.now), inp.poll);
            var parsed := SweepClients(polled, Work(inp.exec));
            var skipped := if IsChecked(d, inp.now, c) then 0 else Micros(inp.now) - Micros(d.t);
            parsed.heap[c].elapsed
            == if StayedIdle(d.srv, polled, parsed, c) then Micros(inp.now) - since - (missed + skipped) else 0
  {
    hide Sound, StreamsOk, SweepClients, Poll, Timely, IsChecked, Exact, TimeDiff, ToInt32, LagAt;
    ExactDiff(d, inp);
    var checked := Checked(d, inp.now);
    var polled := Poll(checked, inp.poll);
    ParsedElapsed(polled, inp.exec, c);
    SurvivorWasChecked(d, inp, c);
    PolledElapsed(checked, inp.poll, c);
    CheckedElapsed(d, inp.now, c);
    ClientIsAccounted(d.srv, checked, polled, SweepClients(polled, Work(inp.exec)), since, missed,
                      Micros(d.t), Micros(inp.now), IsChecked(d, inp.now, c), c);
  }

  lemma NewElapsed<C>(d: Daemon<C>, inp: LoopInput<C>, c: C)
    requires DaemonOk(d) && IterationOk(d, inp) && c !in d.srv.heap
    requires Inv(Checked(d, inp.now)) && Inv(Poll(Checked(d, inp.now), inp.poll))
    requires c in SweepClients(Poll(Checked(d, inp.now), inp.poll), Work(inp.exec)).heap
    ensures SweepClients(Poll(Checked(d, inp.now), inp.poll), Work(inp.exec)).heap[c].elapsed == 0
  {
    hide Sound, StreamsOk, SweepClients, Poll, Timely, TimeDiff, ToInt32, LagAt;
    var checked := Checked(d, inp.now);
    ParsedElapsed(Poll(checked, inp.poll), inp.exec, c);
    PolledElapsed(checked, inp.poll, c);
    if c in checked.heap { CheckedElapsed(d, inp.now, c); }
  }

  lemma RoundIsAccounted<C>(d: Daemon<C>, missed: map<C, int>, inp: LoopInput<C>, c: C)
    requires DaemonOk(d) && IterationOk(d, inp) && Exact(d, inp) && LagAt(d.lag, d.t, inp.now) > 0
    requires Accounted(d.srv.heap, d.since, missed, Micros(d.t)) && c in Iterate(d, inp).srv.heap
    ensures var r := Iterate(d, inp);
            && c in r.since && c in Missed(d, missed, inp)
            && r.srv.heap[c].elapsed == Micros(inp.now) - r.since[c] - Missed(d, missed, inp)[c]
  {
    hide Sound, StreamsOk, SweepClients, Poll, Timely, IsChecked, LagAt, TimeDiff, ToInt32;
    CheckedIsTimely(d, inp.now);
    ExactDiff(d, inp);
    assert Inv(Poll(Checked(d, inp.now), inp.poll)) by { ApplyKeepsInv(Checked(d, inp.now), Polling(inp.poll)); }
    ParsedWasPolled(Poll(Checked(d, inp.now), inp.poll), inp.exec, c);
    if c in d.srv.heap {
      KnownElapsed(d, d.since[c], missed[c], inp, c);
    } else {
      NewElapsed(d, inp, c);
    }
  }

  lemma ParsedWasPolled<C>(s: Server<C>, exec: Handler, c: C)
    requires Inv(s) && c in SweepClients(s, Work(exec)).heap
    ensures c in s.heap
  {
    hide Sound, StreamsOk, SweepClients;
    ParsedElapsed(s, exec, c);
  }

  lemma IterationIsAccounted<C>(d: Daemon<C>, missed: map<C, int>, inp: LoopInput<C>)
    requires DaemonOk(d) && IterationOk(d, inp) && Exact(d, inp)
    requires Accounted(d.srv.heap, d.since, missed, Micros(d.t))
    ensures var r := Iterate(d, inp);
            Accounted(r.srv.heap, r.since, Missed(d, missed, inp), Micros(r.t))
  {
    hide Sound, StreamsOk, SweepClients, Poll, Timely, IsChecked;
    if LagAt(d.lag, d.t, inp.now) > 0 {
      forall c | c in Iterate(d, inp).srv.heap
        ensures var r := Iterate(d, inp);
                && c in r.since && c in Missed(d, missed, inp)
                && r.srv.heap[c].elapsed == Micros(inp.now) - r.since[c] - Missed(d, missed, inp)[c]
      {
        RoundIsAccounted(d, missed, inp, c);
      }
    }
  }

  ghost predicate AllExact<C>(d: Daemon<C>, inputs: seq<LoopInput<C>>)
    requires DaemonOk(d) && LoopOk(d, inputs)
    decreases |inputs|
  {
    inputs == [] ||
    (Exact(d, inputs[0]) && (IterateKeepsOk(d, inputs[0]); AllExact(Iterate(d, inputs[0]), inputs[1..])))
  }

  ghost function AllMissed<C>(d: Daemon<C>, missed: map<C, int>, inputs: seq<LoopInput<C>>): map<C, int>
    requires DaemonOk(d) && LoopOk(d, inputs)
    decreases |inputs|
  {
    if inputs == [] then missed
    else IterateKeepsOk(d, inputs[0]); AllMissed(Iterate(d, inputs[0]), Missed(d, missed, inputs[0]), inputs[1..])
  }

  // Over any run, the idle time on record is exactly the clock time since the client was created or
  // last had a message processed, less the time that went missing.
  lemma {:induction false} IdleTimeIsExact<C>(d: Daemon<C>, missed: map<C, int>, inputs: seq<LoopInput<C>>)
    requires DaemonOk(d) && LoopOk(d, inputs) && AllExact(d, inputs)
    requires Accounted(d.srv.heap, d.since, missed, Micros(d.t))
    ensures var r := Loop(d, inputs);
            Accounted(r.srv.heap, r.since, AllMissed(d, missed, inputs), Micros(r.t))
    decreases |inputs|
  {
    hide Inv, Timely, Iterate, Missed, IterationOk;
    if inputs != [] {
      IterateKeepsOk(d, inputs[0]);
      IterationIsAccounted(d, missed, inputs[0]);
      IdleTimeIsExact(Iterate(d, inputs[0]), Missed(d, missed, inputs[0]), inputs[1..]);
    }
  }

  // So a check that visits a client expires it exactly when the client has a timeout and has been
  // idle for that long, not counting the time that went missing: that is how late it can be.
  lemma ExpiresExactlyWhen<C>(t: TimeVal, listening: int, n: nat, inputs: seq<LoopInput<C>>, next: LoopInput<C>, c: C)
    requires n > 0 && LoopOk(Start<C>(t, listening, n), inputs) && AllExact(Start<C>(t, listening, n), inputs)
    requires var d := Loop(Start<C>(t, listening, n), inputs);
             && Exact(d, next) && Micros(d.t) <= Micros(next.now) && LagAt(d.lag, d.t, next.now) > 0
             && c in d.srv.heap && IsChecked(d, next.now, c)
    ensures var d := Loop(Start<C>(t, listening, n), inputs);
            var missed := AllMissed(Start<C>(t, listening, n), map[], inputs);
            && c in d.since && c in missed
            && (c !in Checked(d, next.now).heap <==>
                  0 < d.srv.heap[c].vars.timeout <= Micros(next.now) - d.since[c] - missed[c])
  {
    hide Inv, Timely, LoopOk, AllExact, IsChecked;
    var d := Loop(Start<C>(t, listening, n), inputs);
    IdleTimeIsExact(Start<C>(t, listening, n), map[], inputs);
    ExactDiff(d, next);
    CheckExpires(d, next.now, c);
  }

  lemma CheckExpires<C>(d: Daemon<C>, now: TimeVal, c: C)
    requires DaemonOk(d) && c in d.srv.heap && IsChecked(d, now, c)
    ensures c !in Checked(d, now).heap <==>
              0 < d.srv.heap[c].vars.timeout <= d.srv.heap[c].elapsed + ToInt32(TimeDiff(d.t, now))
  {
    hide Sound, SweptSlots, SweepClients;
    SweepClientsCloses(d.srv, Tick(ToInt32(TimeDiff(d.t, now))));
    assert !d.srv.heap[c].vars.destroy;
  }
}

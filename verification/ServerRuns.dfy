/**
 Whole runs of the server: any interleaving of timeout sweeps, polls and parse sweeps. Every
 reachable state is sound, and no byte stream is ever lost, duplicated or reordered.
 */
module ServerRuns {
  import opened Common
  import opened CursorQueue
  import opened RingBuffer
  import opened Flattening
  import opened Clients
  import opened ServerModel
  import opened ServerSteps
  import opened ClientSweeps
  import opened SocketPoll

  // Between steps no client is marked for destruction, and the history of every client, alive or
  // destroyed, accounts for every byte received from it.
  ghost predicate StreamsOk<C>(s: Server<C>) {
    && (forall c :: c in s.heap ==> StreamOk(s.heap[c]) && !s.heap[c].vars.destroy)
    && (forall c :: c in s.closed ==> StreamOk(s.closed[c]))
    && s.heap.Keys !! s.closed.Keys
  }

  ghost predicate Inv<C>(s: Server<C>) {
    Sound(s) && StreamsOk(s)
  }

  datatype Step<C> = Sweeping(v: Visit) | Polling(inp: PollInput<C>)

  // What the system guarantees to a step: an accepted client has a record never used before.
  ghost predicate StepOk<C>(s: Server<C>, step: Step<C>) {
    step.Polling? ==>
      InputOk(s, step.inp) && (step.inp.accept.Admitted? ==> step.inp.accept.client !in s.closed.Keys)
  }

  ghost function Apply<C>(s: Server<C>, step: Step<C>): Server<C>
    requires Sound(s) && StepOk(s, step)
  {
    match step case Sweeping(v) => SweepClients(s, v) case Polling(inp) => Poll(s, inp)
  }

  lemma VisitKeepsStream(v: Visit, cs: ClientState)
    requires StreamOk(cs) && !cs.vars.destroy
    ensures StreamOk(VisitClient(v, cs))
    ensures VisitClient(v, cs).received == cs.received
    ensures !Reaps(v, cs) ==> !VisitClient(v, cs).vars.destroy
  {
    match v
    case Tick(_) =>
    case Work(exec) => ProcessingKeepsStream(cs, exec);
  }

  lemma SweepKeepsStreams<C>(s: Server<C>, r: Server<C>, v: Visit, seen: seq<C>)
    requires StreamsOk(s) && SweptHeap(s, r, v, seen)
    ensures StreamsOk(r)
  {
    forall c | c in r.heap ensures StreamOk(r.heap[c]) && !r.heap[c].vars.destroy {
      if c in seen { VisitKeepsStream(v, s.heap[c]); }
    }
    forall c | c in r.closed ensures StreamOk(r.closed[c]) {
      if c in s.heap { VisitKeepsStream(v, s.heap[c]); }
    }
    assert r.heap.Keys <= s.heap.Keys;
  }

  lemma PolledKeepsStream<C>(s: Server<C>, r: Server<C>, inp: PollInput<C>, seen: seq<nat>, c: C)
    requires Sound(s) && StreamsOk(s) && InputOk(s, inp) && PolledHeap(s, r, inp, seen) && c in s.heap
    ensures c in r.heap ==> StreamOk(r.heap[c]) && !r.heap[c].vars.destroy
    ensures c !in r.heap ==> c in r.closed && StreamOk(r.closed[c])
  {
    hide Sound, StreamOk, ReceiveAll;
    ClientHasOpenSlot(s, c);
    var k :| 0 <= k < |s.open.items| - 1 && ClientAt(s.open.items[k], s.pool) == Some(c);
    assert PolledClient(s, r, inp, seen, s.open.items[k]);
    ReceiveAllKeepsStream(s.heap[c], Event(inp, s.pool[s.open.items[k]].socket).chunks);
  }

  lemma NewClientStream()
    ensures StreamOk(NEW_CLIENT)
  {
  }

  lemma PollKeepsStreams<C>(s: Server<C>, r: Server<C>, inp: PollInput<C>, seen: seq<nat>)
    requires Sound(s) && StreamsOk(s) && StepOk(s, Polling(inp)) && PolledHeap(s, r, inp, seen)
    ensures StreamsOk(r)
  {
    forall c | c in r.heap ensures StreamOk(r.heap[c]) && !r.heap[c].vars.destroy {
      if c in s.heap { PolledKeepsStream(s, r, inp, seen, c); } else { NewClientStream(); }
    }
    forall c | c in r.closed ensures StreamOk(r.closed[c]) && c !in r.heap {
      if c in s.heap { PolledKeepsStream(s, r, inp, seen, c); }
    }
  }

  lemma ApplyKeepsInv<C>(s: Server<C>, step: Step<C>)
    requires Inv(s) && StepOk(s, step)
    ensures Inv(Apply(s, step))
  {
    match step
    case Sweeping(v) =>
      SweepClientsCloses(s, v);
      SweepKeepsStreams(s, SweepClients(s, v), v, Visited(s.clients.items, Doomed(s, v)));
    case Polling(inp) =>
      PollCoverage(s, inp);
      PollKeepsStreams(s, Poll(s, inp), inp, Visited(s.open.items, Failing(s, inp)));
  }

  ghost predicate RunOk<C>(s: Server<C>, steps: seq<Step<C>>)
    requires Inv(s)
    decreases |steps|
  {
    steps == [] ||
    (StepOk(s, steps[0]) && (ApplyKeepsInv(s, steps[0]); RunOk(Apply(s, steps[0]), steps[1..])))
  }

  ghost function Run<C>(s: Server<C>, steps: seq<Step<C>>): (r: Server<C>)
    requires Inv(s) && RunOk(s, steps)
    ensures Inv(r) && SameFrame(s, r)
    decreases |steps|
  {
    if steps == [] then s else ApplyKeepsInv(s, steps[0]); Run(Apply(s, steps[0]), steps[1..])
  }

  // The server as it starts.
  ghost function Boot<C>(listening: int, n: nat): (s: Server<C>)
    requires n > 0
    ensures Inv(s) && |s.pool| == n && s.heap == map[]
  {
    InitIsSound<C>(listening, n);
    Init(listening, n)
  }

  lemma InvMeans<C>(s: Server<C>)
    requires Inv(s)
    ensures NoDup(s.free.items) && NoDup(s.open.items) && NoDup(s.clients.items)
    ensures forall i: nat :: !(i in s.free.items && i in s.open.items)
    ensures forall i: nat :: i < |s.pool| <==> i in s.free.items || i in s.open.items
    ensures multiset(Owners(s.open.items, s.pool)) == multiset(s.clients.items)
    ensures |s.free.items| + |s.clients.items| + 1 == |s.pool|
  {
    SlotsArePartitioned(s);
    SlotsAreConserved(s);
  }

  // In every state reachable from start-up, by any mix of accepts, refused accepts, exhaustion of
  // the pool, reads, disconnections, timeout sweeps and parse sweeps: each slot is in exactly one
  // of the two queues, exactly once; the clients of the open slots other than the listener are
  // exactly the queued clients, each once; and the counts add up.
  lemma EveryReachableState<C>(listening: int, n: nat, steps: seq<Step<C>>)
    requires n > 0 && RunOk(Boot<C>(listening, n), steps)
    ensures var s := Run(Boot<C>(listening, n), steps);
            && Inv(s)
            && NoDup(s.free.items) && NoDup(s.open.items) && NoDup(s.clients.items)
            && (forall i: nat :: !(i in s.free.items && i in s.open.items))
            && (forall i: nat :: i < n <==> i in s.free.items || i in s.open.items)
            && multiset(Owners(s.open.items, s.pool)) == multiset(s.clients.items)
            && |s.free.items| + |s.clients.items| + 1 == n
  {
    hide RunOk, Inv, Run, NoDup, Owners;
    InvMeans(Run(Boot<C>(listening, n), steps));
  }

  // ----- How often a client can be skipped -----

  // Whether a step is a sweep that passes over the live client c.
  ghost predicate Skips<C>(s: Server<C>, step: Step<C>, c: C) {
    step.Sweeping? && c in s.heap && c !in Visited(s.clients.items, Doomed(s, step.v))
  }

  ghost function SkipCount<C>(s: Server<C>, steps: seq<Step<C>>, c: C): nat
    requires Inv(s) && RunOk(s, steps)
    decreases |steps|
  {
    if steps == [] then 0
    else
      ApplyKeepsInv(s, steps[0]);
      (if Skips(s, steps[0], c) then 1 else 0) + SkipCount(Apply(s, steps[0]), steps[1..], c)
  }

  ghost predicate IsFirst<C>(s: Server<C>, c: C) {
    s.clients.items != [] && s.clients.items[0] == c
  }

  // The first element of a walk is visited, and stays first unless it is deleted; an element that
  // is skipped becomes the first.
  lemma WalkAndFirst<T>(s: seq<T>, doomed: set<T>, x: T)
    requires NoDup(s) && x in s
    ensures s[0] == x ==> x in Visited(s, doomed)
    ensures s[0] == x && x !in doomed ==> Survivors(s, doomed) != [] && Survivors(s, doomed)[0] == x
    ensures x !in Visited(s, doomed) ==> Survivors(s, doomed) != [] && Survivors(s, doomed)[0] == x
  {
    SweepCoverage(s, doomed);
  }

  // What a sweep did to the records, as far as being alive goes.
  lemma SweptAlive<C>(s: Server<C>, r: Server<C>, v: Visit, seen: seq<C>, c: C)
    requires SweptHeap(s, r, v, seen) && s.heap.Keys !! s.closed.Keys
    ensures c in s.closed ==> c in r.closed
    ensures c in s.heap ==> c in r.closed || (c in r.heap && !(c in Doomed(s, v) && c in seen))
  {
    hide VisitClient, Reaps;
  }

  // One sweep: the first client is never skipped and stays first while it lives; a skipped client
  // becomes the first; what was closed stays closed.
  lemma SweepAndFirst<C>(s: Server<C>, v: Visit, c: C)
    requires Inv(s)
    ensures var r := SweepClients(s, v);
            && (IsFirst(s, c) ==> !Skips(s, Sweeping(v), c) && (IsFirst(r, c) || c in r.closed))
            && (Skips(s, Sweeping(v), c) ==> IsFirst(r, c))
            && (c in s.closed ==> c in r.closed)
  {
    hide Sound, SweepClients, SweptSlots, SweptHeap, Visited, Survivors, Doomed, Pick;
    SoundCursors(s);
    SweepClientsCloses(s, v);
    assert s.heap.Keys !! s.closed.Keys && NoDup(s.clients.items) by { SoundNoDup(s); }
    SweptAlive(s, SweepClients(s, v), v, Visited(s.clients.items, Doomed(s, v)), c);
    if c in s.clients.items { WalkAndFirst(s.clients.items, Doomed(s, v), c); }
  }

  lemma SoundNoDup<C>(s: Server<C>)
    requires Sound(s)
    ensures NoDup(s.clients.items)
  {
  }

  lemma PollAndFirst<C>(s: Server<C>, inp: PollInput<C>, c: C)
    requires Inv(s) && StepOk(s, Polling(inp))
    ensures var r := Poll(s, inp);
            && (IsFirst(s, c) ==> IsFirst(r, c) || c in r.closed)
            && (c in s.closed ==> c in r.closed)
  {
    hide Sound, StreamsOk, Poll, Failing;
    SoundCursors(s);
    PollKeepsHead(s, inp, c);
    PollCoverage(s, inp);
    if IsFirst(s, c) { assert c in s.clients.items; }
  }

  lemma StepAndFirst<C>(s: Server<C>, step: Step<C>, c: C)
    requires Inv(s) && StepOk(s, step)
    ensures var r := Apply(s, step);
            && (IsFirst(s, c) ==> !Skips(s, step, c) && (IsFirst(r, c) || c in r.closed))
            && (Skips(s, step, c) ==> IsFirst(r, c))
            && (c in s.closed ==> !Skips(s, step, c) && c in r.closed)
  {
    hide Sound, Skips, IsFirst;
    match step
    case Sweeping(v) =>
      SweepAndFirst(s, v, c);
      if c in s.closed { ClosedIsNotSkipped(s, step, c); }
    case Polling(inp) =>
      PollAndFirst(s, inp, c);
      PollSkipsNone(s, inp, c);
  }

  lemma ClosedIsNotSkipped<C>(s: Server<C>, step: Step<C>, c: C)
    requires Inv(s) && c in s.closed
    ensures !Skips(s, step, c)
  {
  }

  lemma PollSkipsNone<C>(s: Server<C>, inp: PollInput<C>, c: C)
    ensures !Skips(s, Polling(inp), c)
  {
  }

  lemma {:induction false} NeverSkippedAgain<C>(s: Server<C>, steps: seq<Step<C>>, c: C)
    requires Inv(s) && RunOk(s, steps) && (IsFirst(s, c) || c in s.closed)
    ensures SkipCount(s, steps, c) == 0
    decreases |steps|
  {
    hide Sound, StreamsOk, Skips, IsFirst, Apply, StepOk;
    if steps != [] {
      ApplyKeepsInv(s, steps[0]);
      StepAndFirst(s, steps[0], c);
      NeverSkippedAgain(Apply(s, steps[0]), steps[1..], c);
    }
  }

  // Over any run, all the sweeps together skip a client at most once in its life.
  lemma {:induction false} SkippedAtMostOnce<C>(s: Server<C>, steps: seq<Step<C>>, c: C)
    requires Inv(s) && RunOk(s, steps)
    ensures SkipCount(s, steps, c) <= 1
    decreases |steps|
  {
    hide Sound, StreamsOk, Skips, IsFirst, Apply, StepOk;
    if steps != [] {
      ApplyKeepsInv(s, steps[0]);
      StepAndFirst(s, steps[0], c);
      var r := Apply(s, steps[0]);
      if Skips(s, steps[0], c) { NeverSkippedAgain(r, steps[1..], c); } else { SkippedAtMostOnce(r, steps[1..], c); }
    }
  }

  // ----- A client that is never read -----

  // Polls in each of which the connection of the first of two clients ends and another client waits.
  ghost predicate AllStarving<C>(s: Server<C>, steps: seq<Step<C>>)
    requires Inv(s) && RunOk(s, steps)
    decreases |steps|
  {
    steps == []
    || (steps[0].Polling? && Starving(s, steps[0].inp)
        && (ApplyKeepsInv(s, steps[0]); AllStarving(Apply(s, steps[0]), steps[1..])))
  }

  // However many such polls there are, and whatever the second client has sent, nothing is read from
  // it: its record is what it was.
  lemma {:induction false} NeverRead<C>(s: Server<C>, steps: seq<Step<C>>, c: C)
    requires Inv(s) && RunOk(s, steps) && AllStarving(s, steps)
    requires |s.open.items| == 3 && ClientAt(s.open.items[1], s.pool) == Some(c)
    ensures var r := Run(s, steps);
            && r.open.items == s.open.items && ClientAt(s.open.items[1], r.pool) == Some(c)
            && c in s.heap && c in r.heap && r.heap[c] == s.heap[c]
    decreases |steps|
  {
    hide Sound, StreamsOk, Poll, InputOk, Starving;
    OpenSlotHasClient(s, 1);
    if steps != [] {
      ApplyKeepsInv(s, steps[0]);
      SecondIsKept(s, steps[0].inp, c);
      NeverRead(Apply(s, steps[0]), steps[1..], c);
    }
  }

  lemma SecondIsKept<C>(s: Server<C>, inp: PollInput<C>, c: C)
    requires Sound(s) && InputOk(s, inp) && Starving(s, inp) && ClientAt(s.open.items[1], s.pool) == Some(c)
    ensures var r := Poll(s, inp);
            && r.open.items == s.open.items && ClientAt(s.open.items[1], r.pool) == Some(c)
            && c in s.heap && c in r.heap && r.heap[c] == s.heap[c]
  {
    hide Sound, InputOk, Poll;
    StarvingPoll(s, inp);
    OpenSlotHasClient(s, 1);
    SlotsArePartitioned(s);
    SlotsHaveOwnClients(s, s.open.items[0], s.open.items[1]);
  }

  // What the outside presents to each poll: the end of the connection on one socket, data on the
  // other one, and a new connection on the freed descriptor.
  function Reconnect(socket: int, other: int, data: ReadEvent, listening: int, c: nat): PollInput<nat> {
    PollInput({socket, other, listening}, map[socket := ReadEvent([], false), other := data], Admitted(socket, c))
  }

  // Such polls can go on from any state with two clients, for any number of polls.
  lemma {:induction false} StarvingRun(s: Server<nat>, n: nat, data: ReadEvent, unused: nat)
    returns (steps: seq<Step<nat>>)
    requires Inv(s) && ChunksOk(data.chunks) && |s.open.items| == 3
    requires s.open.items[0] < |s.pool| && s.open.items[1] < |s.pool|
    requires s.pool[s.open.items[0]].socket != s.pool[s.open.items[1]].socket
    requires forall c :: c in s.heap || c in s.closed ==> c < unused
    ensures |steps| == n && RunOk(s, steps) && AllStarving(s, steps)
    ensures AllPresent(steps, s.pool[s.open.items[1]].socket, data)
    decreases n
  {
    if n == 0 {
      steps := [];
    } else {
      hide Sound, StreamsOk, Poll, InputOk, Starving, RunOk, AllStarving, Apply, StepOk, ChunksOk, AllPresent;
      var step := ReconnectStep(s, data, unused);
      var rest := StarvingRun(Apply(s, step), n - 1, data, unused + 1);
      steps := [step] + rest;
      StarvingCons(s, step, rest);
      PresentCons(step, rest, s.pool[s.open.items[1]].socket, data);
    }
  }

  lemma StarvingCons<C>(s: Server<C>, step: Step<C>, rest: seq<Step<C>>)
    requires Inv(s) && StepOk(s, step) && step.Polling? && Starving(s, step.inp) && Inv(Apply(s, step))
    requires RunOk(Apply(s, step), rest) && AllStarving(Apply(s, step), rest)
    ensures RunOk(s, [step] + rest) && AllStarving(s, [step] + rest)
  {
    hide Sound, StreamsOk, Apply, StepOk, Starving;
    assert ([step] + rest)[1..] == rest;
  }

  // The socket is ready and has this to read.
  predicate Presents<C>(inp: PollInput<C>, socket: int, data: ReadEvent) {
    socket in inp.ready && Event(inp, socket) == data
  }

  ghost predicate AllPresent<C>(steps: seq<Step<C>>, socket: int, data: ReadEvent) {
    forall k :: 0 <= k < |steps| ==> steps[k].Polling? && Presents(steps[k].inp, socket, data)
  }

  lemma PresentCons<C>(step: Step<C>, rest: seq<Step<C>>, socket: int, data: ReadEvent)
    requires step.Polling? && Presents(step.inp, socket, data) && AllPresent(rest, socket, data)
    ensures AllPresent([step] + rest, socket, data)
  {
  }

  lemma ReconnectStep(s: Server<nat>, data: ReadEvent, unused: nat) returns (step: Step<nat>)
    requires Inv(s) && ChunksOk(data.chunks) && |s.open.items| == 3
    requires s.open.items[0] < |s.pool| && s.open.items[1] < |s.pool|
    requires s.pool[s.open.items[0]].socket != s.pool[s.open.items[1]].socket
    requires forall c :: c in s.heap || c in s.closed ==> c < unused
    ensures step.Polling? && StepOk(s, step) && Starving(s, step.inp)
    ensures Presents(step.inp, s.pool[s.open.items[1]].socket, data)
    ensures var r := Apply(s, step);
            && Inv(r) && r.open.items == s.open.items && |r.pool| == |s.pool|
            && r.pool[s.open.items[0]].socket == s.pool[s.open.items[0]].socket
            && r.pool[s.open.items[1]].socket == s.pool[s.open.items[1]].socket
            && forall c :: c in r.heap || c in r.closed ==> c < unused + 1
  {
    hide Sound, StreamsOk, Poll, ChunksOk;
    var i, j := s.open.items[0], s.open.items[1];
    var inp := Reconnect(s.pool[i].socket, s.pool[j].socket, data, s.listening, unused);
    OpenSlotHasClient(s, 0);
    NothingIsOk();
    assert Fails(s.pool[i], s.listening, inp);
    step := Polling(inp);
    ApplyKeepsInv(s, step);
    SlotsArePartitioned(s);
    StarvingPoll(s, inp);
    KnownAfterPoll(s, inp);
  }

  lemma NothingIsOk()
    ensures ChunksOk([])
  {
  }

  lemma KnownAfterPoll(s: Server<nat>, inp: PollInput<nat>)
    requires Sound(s) && InputOk(s, inp) && inp.accept.Admitted?
    ensures var r := Poll(s, inp);
            forall c :: c in r.heap || c in r.closed ==> c in s.heap || c in s.closed || c == inp.accept.client
  {
    hide Sound, InputOk, Poll, PolledClient;
    PollCoverage(s, inp);
  }

  // Two accepted clients, and any number of polls in which the second open slot always has data to
  // read and is never read.
  lemma SecondIsNeverRead(n: nat, data: ReadEvent) returns (s: Server<nat>, steps: seq<Step<nat>>)
    requires ChunksOk(data.chunks)
    ensures Inv(s) && |steps| == n && RunOk(s, steps) && s.open.items == [2, 1, 0] && 1 in s.heap
    ensures AllPresent(steps, 4, data)
    ensures 1 in Run(s, steps).heap && Run(s, steps).heap[1] == s.heap[1]
  {
    hide Sound, RunOk, AllStarving, Run, ChunksOk;
    s := TwoDueClients();
    DueStream();
    steps := StarvingRun(s, n, data, 3);
    NeverRead(s, steps, 1);
  }

  lemma DueStream()
    ensures StreamOk(DUE) && !DUE.vars.destroy
  {
  }

  // A poll in which a client waits and no connection ends gives it the slot at the tail of the free
  // queue. After a sweep that destroyed clients that is the slot of the one destroyed last.
  lemma AcceptAfterSweep<C>(s: Server<C>, v: Visit, inp: PollInput<C>)
    requires Sound(s) && Pick(Visited(s.clients.items, Doomed(s, v)), Doomed(s, v)) != []
    requires InputOk(SweepClients(s, v), inp) && Waiting(SweepClients(s, v), inp)
    requires forall i :: i in SweepClients(s, v).open.items ==> i !in Failing(SweepClients(s, v), inp)
    ensures var r := SweepClients(s, v);
            var reaped := Pick(Visited(s.clients.items, Doomed(s, v)), Doomed(s, v));
            var i := SlotIn(s.open.items, s.pool, reaped[|reaped| - 1]);
            && r.free.items != [] && r.free.items[|r.free.items| - 1] == i
            && Poll(r, inp).free.items == r.free.items[..|r.free.items| - 1]
            && Poll(r, inp).open.items == PushNth(r.open.items, i, BeforeLastTwo(|r.open.items|))
  {
    hide Sound, SweepClients, SlotIn, InputOk, Waiting, Failing, Poll;
    var r := SweepClients(s, v);
    var failing := Failing(r, inp);
    LastFreedIsReused(s, v, 0, s.clients.items[0]);
    PollQueues(r, inp);
    SweepOfNone(r.open.items, failing);
  }

  lemma SweepOfNone<T>(s: seq<T>, doomed: set<T>)
    requires forall x :: x in s ==> x !in doomed
    ensures Visited(s, doomed) == s == Survivors(s, doomed) && Pick(s, doomed) == []
  {
    KeepNone(s, doomed);
    PickNone(s, doomed);
  }

  lemma {:induction false} PickNone<T>(s: seq<T>, good: set<T>)
    requires forall x :: x in s ==> x !in good
    ensures Pick(s, good) == []
  {
    if s != [] {
      assert s == [s[0]] + s[1..] && s[0] in s && forall x :: x in s[1..] ==> x in s;
      PickNone(s[1..], good);
    }
  }

  // One parse sweep over any reachable state. A client that is visited has its pending commands run
  // in order, each once, up to the first one that sets its destroy flag, and it stays exactly when
  // none does, with nothing pending; the only client ever skipped, the original second one when the
  // first one was destroyed, keeps all of its commands for the next sweep.
  lemma SweepDispatches<C>(s: Server<C>, exec: Handler, c: C)
    requires Inv(s) && c in s.heap
    ensures var r := SweepClients(s, Work(exec));
            var doomed := Doomed(s, Work(exec));
            var skipped := |s.clients.items| >= 2 && s.clients.items[0] in doomed && c == s.clients.items[1];
            var cs := if c in r.heap then r.heap[c] else if c in r.closed then r.closed[c] else NEW_CLIENT;
            && (c in r.heap || c in r.closed)
            && if skipped then cs == s.heap[c] && c in r.heap
               else
                 && Progress(s.heap[c], cs, ParseAll(s.heap[c].messages.items), exec)
                 && (c in r.heap <==> !cs.vars.destroy)
                 && (c in r.heap ==>
                       cs.messages.items == [] && cs.log == s.heap[c].log + ParseAll(s.heap[c].messages.items))
  {
    hide Sound, Progress, SweepClients;
    SweepClientsCloses(s, Work(exec));
    SweptClient(s, SweepClients(s, Work(exec)), exec, Visited(s.clients.items, Doomed(s, Work(exec))), c);
  }

  lemma SweptClient<C>(s: Server<C>, r: Server<C>, exec: Handler, seen: seq<C>, c: C)
    requires StreamsOk(s) && SweptHeap(s, r, Work(exec), seen) && c in s.heap
    ensures c in r.heap || c in r.closed
    ensures c !in seen ==> c in r.heap && r.heap[c] == s.heap[c]
    ensures c in seen ==>
              var cs := if c in r.heap then r.heap[c] else r.closed[c];
              && Progress(s.heap[c], cs, ParseAll(s.heap[c].messages.items), exec)
              && (c in r.heap <==> !cs.vars.destroy)
              && (c in r.heap ==>
                    cs.messages.items == [] && cs.log == s.heap[c].log + ParseAll(s.heap[c].messages.items))
  {
    hide Progress, StreamOk;
    if c in seen {
      assert StreamOk(s.heap[c]);
      QueueOfStream(s.heap[c]);
      ProcessingKeepsStream(s.heap[c], exec);
      ProcessingStopsAtDestroy(s.heap[c], exec);
      ProgressToTheEnd(s.heap[c], ProcessMessages(s.heap[c], exec), ParseAll(s.heap[c].messages.items), exec);
    }
  }

  lemma QueueOfStream(cs: ClientState)
    requires StreamOk(cs)
    ensures cs.messages.Ok()
  {
  }

  lemma ProgressToTheEnd(cs: ClientState, r: ClientState, pending: seq<seq<string>>, exec: Handler)
    requires Progress(cs, r, pending, exec)
    ensures !r.vars.destroy ==> r.log == cs.log + pending
  {
    assert pending[..|pending|] == pending;
  }

  // End to end, in every reachable state: when all that a client sent is a list of commands, with
  // any spaces and tabs between their words, the argument vectors obtained from it so far are a first
  // part of that list, each once, in order, and its pending messages hold exactly the rest. This holds
  // for live clients and, as of their end, for destroyed ones.
  lemma CommandsArriveInOrder<C>(s: Server<C>, c: C, cmds: seq<seq<string>>, gaps: seq<seq<string>>, ends: seq<string>)
    requires Inv(s) && Sendable(cmds, gaps) && |cmds| == |ends|
    requires forall i :: 0 <= i < |ends| ==> MessageEnd(ends[i])
    ensures c in s.heap && s.heap[c].received == Wire(cmds, gaps, ends) ==>
              cmds == s.heap[c].log + ParseAll(s.heap[c].messages.items)
    ensures c in s.closed && s.closed[c].received == Wire(cmds, gaps, ends) ==>
              cmds == s.closed[c].log + ParseAll(s.closed[c].messages.items)
  {
    hide Sound, Wire, ParseAll, Sendable;
    WireRoundTrip(cmds, gaps, ends);
  }
}

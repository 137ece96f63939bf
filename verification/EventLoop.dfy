/**
 The body of the endless loop, in place.
 */
module EventLoop {
  import opened Clients
  import opened ClientRecord
  import opened ServerModel
  import opened ClientSweeps
  import opened SocketPoll
  import opened ServerRuns
  import opened MainLoop
  import opened SocketServer

  // A processing round: timeouts, then sockets, then messages.
  method Round(server: SocketServer, tDiff: int, inp: PollInput<Client>, exec: Handler)
    returns (ghost polled: Server<Client>)
    requires server.Valid() && server.InputFits(inp)
    requires InputOk(SweepClients(server.Abs(), Tick(tDiff)), inp)
    modifies server, server.pool, server.free, server.open, server.clients, server.ring
    modifies set c | c in server.heap
    modifies set c | c in server.heap :: c.messages
    modifies NewRecord(inp)
    ensures polled == Poll(SweepClients(old(server.Abs()), Tick(tDiff)), inp)
    ensures server.Valid() && server.Abs() == SweepClients(polled, Work(exec))
  {
    hide Sound, InputOk, SweepClients, Poll, Linked, Apart;
    server.ClientsCheckTimeouts(tDiff);
    var _ := server.PollClients(inp);
    polled := server.Abs();
    server.ParseAllClientMessages(exec);
  }

  class EventLoop {
    const server: SocketServer
    var t: TimeVal
    var processLag: int
    ghost var since: map<Client, int>

    ghost function State(): Daemon<Client>
      reads this, server, server.pool, server.free, server.open, server.clients
    {
      Daemon(t, processLag, server.Abs(), since)
    }

    constructor (server: SocketServer, now: TimeVal)
      ensures this.server == server && t == now && processLag == 0 && since == map[]
    {
      this.server, t, processLag, since := server, now, 0, map[];
    }

    // One iteration: reads the clock, runs a processing round when it is due, and says how long
    // to sleep.
    method Iterate(now: TimeVal, inp: PollInput<Client>, exec: Handler) returns (sleeptime: int)
      requires server.Valid() && Inv(server.Abs()) && IterationOk(State(), LoopInput(now, inp, exec))
      requires server.InputFits(inp)
      modifies this, server, server.pool, server.free, server.open, server.clients, server.ring
      modifies set c | c in server.heap
      modifies set c | c in server.heap :: c.messages
      modifies NewRecord(inp)
      ensures server.Valid() && State() == MainLoop.Iterate(old(State()), LoopInput(now, inp, exec))
      ensures sleeptime == SleepTime(processLag)
    {
      hide Sound, StreamsOk, InputOk, SweepClients, Poll, SocketServer.Valid;
      ghost var d := State();
      var lastT := t;
      t := now;
      var tDiff := t.sec - lastT.sec;
      if tDiff + 1 > MAX_SECS || tDiff < 0 {
        tDiff := 0;
        processLag := 1;
      } else {
        tDiff := tDiff * USECS_PER_SEC;
        tDiff := tDiff + (t.usec - lastT.usec);
      }
      processLag := processLag + tDiff;
      if processLag > 0 {
        ghost var polled := Round(server, ToInt32(tDiff), inp, exec);
        processLag := 0 - PERIOD;
        since := Since(d.srv, polled, server.Abs(), since, Micros(now));
      }
      sleeptime := if 0 - processLag > 0 then 0 - processLag else 0;
    }
  }
}

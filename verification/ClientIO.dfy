/**
 What the server does with one client: reading from its socket through the receive ring, and
 processing its pending messages.
 */
module ClientIO {
  import opened Common
  import opened Splitting
  import opened RingBuffer
  import opened Clients
  import opened ClientRecord
  import opened ClientSweeps
  import opened SocketPoll

  const MAXMSG: nat := 8192

  // No block is larger than what the receive call asks for.
  ghost predicate Fit(chunks: seq<string>) {
    chunks == [] || (|chunks[0]| <= MAXMSG && Fit(chunks[1..]))
  }

  lemma {:induction false} FitMeaning(chunks: seq<string>)
    ensures Fit(chunks) <==> forall i :: 0 <= i < |chunks| ==> |chunks[i]| <= 8192
  {
    if chunks != [] {
      FitMeaning(chunks[1..]);
      assert forall i :: 0 < i < |chunks| ==> chunks[i] == chunks[1..][i - 1];
    }
  }

  lemma AddMessagesCons(cs: ClientState, m: string, rest: seq<string>)
    ensures AddMessages(cs, [m] + rest) == AddMessages(AddMessage(cs, m), rest)
  {
    assert ([m] + rest)[1..] == rest;
  }

  // The strings still to be queued: the one just read, if any, and those in the data left.
  function Rest(str: Option<string>, data: string): seq<string>
    requires DrainDefined(data)
  {
    match str case None => [] case Some(m) => [m] + Drain(data)
  }

  // What reading one string takes from the data.
  lemma ReadTakesFirst(data: string, str: Option<string>, left: string)
    requires DrainDefined(data)
    requires data == "" ==> str == None && left == ""
    requires data != "" ==>
               str == Some(data[..FirstTerminator(data)]) && FirstTerminator(data) < |data|
               && left == data[FirstTerminator(data) + 1..]
    ensures DrainDefined(left) && Drain(data) == Rest(str, left)
    ensures str.Some? ==> |left| < |data|
    ensures str.None? ==> left == ""
  {
  }

  lemma DefinedReads(data: string)
    requires DrainDefined(data)
    ensures ReadDefined(data) && (data != "" ==> FirstTerminator(data) < |data|)
  {
  }

  lemma QueueRest(cs: ClientState, m: string, data: string)
    requires DrainDefined(data)
    ensures AddMessages(cs, Rest(Some(m), data)) == AddMessages(AddMessage(cs, m), Drain(data))
    ensures AddMessages(cs, Rest(None, data)) == cs
  {
    AddMessagesCons(cs, m, Drain(data));
  }

  // Reads the next string, which is the first of those that the data holds.
  method NextString(ring: Ring) returns (str: Option<string>)
    requires ring.Valid() && DrainDefined(ring.data)
    modifies ring
    ensures ring.Valid() && DrainDefined(ring.data) && Drain(old(ring.data)) == Rest(str, ring.data)
    ensures str.Some? ==> |ring.data| < |old(ring.data)|
    ensures str.None? ==> ring.data == ""
  {
    hide FirstTerminator, DrainDefined, Drain, Rest;
    ghost var data := ring.data;
    DefinedReads(data);
    str := ring.ReadString();
    ReadTakesFirst(data, str, ring.data);
  }

  // Moves one received block through the ring into the message queue of the client.
  method TakeBlock(ring: Ring, c: Client, chunk: string)
    requires ring.Valid() && ring.data == "" && ring.capacity == 8192
    requires chunk != "" && |chunk| <= MAXMSG && Terminated(chunk)
    modifies ring, c, c.messages
    ensures ring.Valid() && ring.data == ""
    ensures c.messages == old(c.messages) && c.sock == old(c.sock)
    ensures c.State() == Receive(old(c.State()), chunk)
  {
    hide FirstTerminator, Terminated, DrainDefined, Drain, Rest, AddMessages, AddMessage;
    DrainDefinedIffTerminated(chunk);
    ghost var target := AddMessages(c.State(), Drain(chunk));
    var _ := ring.Write(chunk);
    assert ring.data == chunk;
    var str := NextString(ring);
    while str.Some?
      invariant ring.Valid() && DrainDefined(ring.data) && (str.None? ==> ring.data == "")
      invariant c.messages == old(c.messages) && c.sock == old(c.sock) && c.received == old(c.received)
      invariant AddMessages(c.State(), Rest(str, ring.data)) == target
      decreases str.Some?, |ring.data|
    {
      QueueRest(c.State(), str.value, ring.data);
      c.AddMessage(str.value);
      str := NextString(ring);
    }
    QueueRest(c.State(), "", ring.data);
    c.received := c.received + chunk;
  }

  // What reading may leave in the ring is blanked.
  method DropLeftOvers(ring: Ring)
    requires ring.Valid()
    modifies ring
    ensures ring.Valid() && ring.data == seq(|old(ring.data)|, _ => '\0')
  {
    if ring.MaxRead() > 0 {
      ring.Clear();
    }
  }

  // Reads until the socket has no more data. The ring is empty after each block, so the next one
  // may again be as large as the ring.
  method ReadFromClient(ring: Ring, c: Client, event: ReadEvent) returns (err: int)
    requires ring.Valid() && ring.data == "" && ring.capacity == MAXMSG
    requires ChunksOk(event.chunks) && Fit(event.chunks)
    modifies ring, c, c.messages
    ensures ring.Valid() && ring.data == ""
    ensures c.messages == old(c.messages) && c.sock == old(c.sock)
    ensures c.State() == ReceiveAll(old(c.State()), event.chunks)
    ensures err == if event.again then 0 else -1
  {
    ghost var rest := event.chunks;
    var k := 0;
    while k < |event.chunks|
      invariant 0 <= k <= |event.chunks| && rest == event.chunks[k..]
      invariant ring.Valid() && ring.data == "" && ring.MaxWrite() == MAXMSG
      invariant c.messages == old(c.messages) && c.sock == old(c.sock)
      invariant ChunksOk(rest) && Fit(rest)
      invariant ReceiveAll(c.State(), rest) == ReceiveAll(old(c.State()), event.chunks)
    {
      assert rest[0] == event.chunks[k];
      TakeBlock(ring, c, event.chunks[k]);
      k, rest := k + 1, rest[1..];
    }
    DropLeftOvers(ring);
    err := if event.again then 0 else -1;
  }

  // What is left to do once a message has been taken from the queue.
  function ProcessTaken(cs: ClientState, message: string, exec: Handler): ClientState {
    var done := Dispatch(cs, message, exec);
    if done.vars.destroy then done else ProcessMessages(done.(elapsed := 0), exec)
  }

  lemma PendingAreStrings(cs: ClientState)
    requires StreamOk(cs) && cs.messages.items != []
    ensures cs.messages.Ok() && '\0' !in cs.messages.items[0]
  {
    var m := cs.messages.items[0];
    assert Free(m, TERMINATORS);
    forall i | 0 <= i < |m| ensures m[i] != '\0' {}
  }

  // The first message of before has been taken, which leaves the client in state cs.
  ghost predicate Took(before: ClientState, cs: ClientState, message: string) {
    && StreamOk(before) && before.messages.items != []
    && message == before.messages.items[0]
    && cs == before.(messages := before.messages.Dequeue())
  }

  lemma TakeFirst(before: ClientState, cs: ClientState, str: Option<string>, exec: Handler)
    requires StreamOk(before) && cs == before.(messages := before.messages.Dequeue())
    requires str == before.messages.Rewind().Get()
    ensures str.Some? <==> before.messages.items != []
    ensures str.Some? ==> Took(before, cs, str.value)
    ensures ProcessMessages(before, exec) == if str.Some? then ProcessTaken(cs, str.value, exec) else cs
    ensures str.Some? ==> |cs.messages.items| < |before.messages.items|
  {
  }

  lemma TookDispatches(before: ClientState, cs: ClientState, message: string, exec: Handler)
    requires Took(before, cs, message)
    ensures '\0' !in message && StreamOk(Dispatch(cs, message, exec).(elapsed := 0))
  {
    PendingAreStrings(before);
    DispatchKeepsStream(before, exec);
  }

  // Processes the pending messages in order, up to the first command that marks the client for
  // destruction; says whether there was one.
  method ProcessClient(c: Client, exec: Handler) returns (reaped: bool)
    requires StreamOk(c.State())
    modifies c, c.messages
    ensures c.messages == old(c.messages) && c.sock == old(c.sock)
    ensures c.State() == ProcessMessages(old(c.State()), exec)
    ensures reaped == Reaps(Work(exec), old(c.State()))
  {
    ghost var cs, before := c.State(), c.State();
    ghost var target := ProcessMessages(cs, exec);
    assert c.messages.Valid();
    var str := c.GetMessage();
    TakeFirst(before, c.State(), str, exec);
    hide StreamOk, ProcessMessages, Dispatch;
    while str.Some?
      invariant c.messages == old(c.messages) && c.sock == old(c.sock)
      invariant str.Some? ==> Took(before, c.State(), str.value)
      invariant str.Some? ==> ProcessTaken(c.State(), str.value, exec) == target && cs.messages.items != []
      invariant str.None? ==> c.State() == target && (cs.messages.items != [] ==> !target.vars.destroy)
      decreases str.Some?, |c.messages.items|
    {
      TookDispatches(before, c.State(), str.value, exec);
      c.ParseMessage(str.value, exec);
      if c.destroy {
        return true;
      }
      c.ResetElapsedTime();
      before := c.State();
      assert c.messages.Valid() by { StreamQueueOk(before); }
      str := c.GetMessage();
      TakeFirst(before, c.State(), str, exec);
    }
    return false;
  }

  lemma StreamQueueOk(cs: ClientState)
    requires StreamOk(cs)
    ensures cs.messages.Ok()
  {
  }
}

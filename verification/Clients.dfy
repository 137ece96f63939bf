/**
 A client: its queue of pending messages, its idle time and timeout, and the processing of its
 messages.
 */
module Clients {
  import opened CursorQueue
  import opened Splitting
  import opened RingBuffer
  import opened CommandLine
  import opened Flattening

  const LONG_MAX: int := 0x7fff_ffff_ffff_ffff
  const INT_MAX: int := 0x7fff_ffff
  const USECS_PER_SEC: int := 1000000

  // The largest number of seconds whose microseconds fit an int.
  const MAX_TIMEOUT: int := 2147

  // Conversion of a long to an int: the low 32 bits, read as a signed number.
  function ToInt32(x: int): (r: int)
    ensures -0x8000_0000 <= r <= INT_MAX
    ensures x <= INT_MAX && x >= -0x8000_0000 ==> r == x
    ensures x >= 0 ==> r <= x
  {
    (x + 0x8000_0000) % 0x1_0000_0000 - 0x8000_0000
  }

  // What commands can change in the record of a client.
  datatype Vars = Vars(timeout: int, user: bool, destroy: bool)

  // What running a command does to the record of the client that sent it.
  type Handler = (Vars, seq<string>) -> Vars

  // A client, with the history of the bytes received from it and of the argument vectors
  // obtained from its messages.
  datatype ClientState = ClientState(vars: Vars, elapsed: int, messages: Cursor<string>,
                                     received: string, log: seq<seq<string>>)

  const NEW_CLIENT := ClientState(Vars(0, false, false), 0, Cursor([], -1), "", [])

  // ----- Timeouts -----

  function CheckTimeout(cs: ClientState, tDiff: int): ClientState {
    var elapsed := cs.elapsed + tDiff;
    cs.(elapsed := elapsed,
        vars := if cs.vars.timeout > 0 && elapsed >= cs.vars.timeout then cs.vars.(destroy := true) else cs.vars)
  }

  // The int that a number of seconds is stored as. A negative number is meant to become LONG_MAX,
  // which is -1 once converted to int.
  function StoredTimeout(seconds: int): int
    requires seconds <= MAX_TIMEOUT
  {
    if seconds < 0 then ToInt32(LONG_MAX) else seconds * USECS_PER_SEC
  }

  function SetTimeout(vars: Vars, seconds: int): Vars
    requires seconds <= MAX_TIMEOUT
  {
    var timeout := StoredTimeout(seconds);
    if vars.user || vars.timeout == 0 || 0 < timeout < vars.timeout then vars.(timeout := timeout) else vars
  }

  // Division by 1e6 truncates toward zero.
  function GetTimeout(vars: Vars): int {
    if vars.timeout >= 0 then vars.timeout / USECS_PER_SEC else -(-vars.timeout / USECS_PER_SEC)
  }

  datatype TimeoutOp = SetTo(seconds: int) | Authenticate | Deauthenticate

  predicate InRange(ops: seq<TimeoutOp>) {
    forall i :: 0 <= i < |ops| && ops[i].SetTo? ==> ops[i].seconds <= MAX_TIMEOUT
  }

  function TimeoutStep(vars: Vars, op: TimeoutOp): Vars
    requires op.SetTo? ==> op.seconds <= MAX_TIMEOUT
  {
    match op
    case SetTo(seconds) => SetTimeout(vars, seconds)
    case Authenticate => vars.(user := true)
    case Deauthenticate => vars.(user := false)
  }

  function TimeoutRun(vars: Vars, ops: seq<TimeoutOp>): Vars
    requires InRange(ops)
    decreases |ops|
  {
    if ops == [] then vars else TimeoutRun(TimeoutStep(vars, ops[0]), ops[1..])
  }

  // The smallest positive number, or 0.
  function MinPositive(s: seq<int>): int {
    if s == [] then 0
    else
      var m := MinPositive(s[1..]);
      if s[0] > 0 && (m == 0 || s[0] < m) then s[0] else m
  }

  function FirstNonZero(s: seq<int>): int {
    if s == [] then 0 else if s[0] != 0 then s[0] else FirstNonZero(s[1..])
  }

  lemma {:induction false} MinPositiveIsLeast(s: seq<int>)
    ensures MinPositive(s) >= 0
    ensures MinPositive(s) > 0 ==> MinPositive(s) in s
    ensures forall x :: x in s && x > 0 ==> 0 < MinPositive(s) <= x
  {
    if s != [] {
      MinPositiveIsLeast(s[1..]);
      assert s == [s[0]] + s[1..];
    }
  }

  function Settings(s: seq<int>): seq<TimeoutOp> {
    seq(|s|, i requires 0 <= i < |s| => SetTo(s[i]))
  }

  // A positive timeout can only be lowered by a client without a user; a negative one stays.
  lemma {:induction false} SettingsFromNonZero(vars: Vars, s: seq<int>)
    requires !vars.user && vars.timeout != 0 && vars.timeout >= -1
    requires vars.timeout > 0 ==> vars.timeout % USECS_PER_SEC == 0
    requires forall i :: 0 <= i < |s| ==> s[i] <= MAX_TIMEOUT
    ensures vars.timeout == -1 ==> TimeoutRun(vars, Settings(s)).timeout == -1
    ensures vars.timeout > 0 ==>
              TimeoutRun(vars, Settings(s)).timeout == USECS_PER_SEC * MinPositive([vars.timeout / USECS_PER_SEC] + s)
    decreases |s|
  {
    var t := vars.timeout / USECS_PER_SEC;
    assert ([t] + s)[1..] == s;
    if s != [] {
      assert Settings(s)[0] == SetTo(s[0]) && Settings(s)[1..] == Settings(s[1..]);
      var next := SetTimeout(vars, s[0]);
      SettingsFromNonZero(next, s[1..]);
      MinPositiveIsLeast(s[1..]);
      assert ([next.timeout / USECS_PER_SEC] + s[1..])[1..] == s[1..];
    }
  }

  // Over any settings of a client that never had a user: when the first one other than 0 is
  // negative, no timeout is ever in force; otherwise the smallest positive one is.
  lemma {:induction false} UnauthenticatedTimeout(s: seq<int>)
    requires forall i :: 0 <= i < |s| ==> s[i] <= 2147
    ensures TimeoutRun(NEW_CLIENT.vars, Settings(s)).timeout
         == if FirstNonZero(s) < 0 then -1 else 1000000 * MinPositive(s)
  {
    if s != [] {
      assert Settings(s)[0] == SetTo(s[0]) && Settings(s)[1..] == Settings(s[1..]);
      if s[0] == 0 {
        UnauthenticatedTimeout(s[1..]);
      } else {
        SettingsFromNonZero(SetTimeout(NEW_CLIENT.vars, s[0]), s[1..]);
        assert s == [s[0]] + s[1..];
      }
    }
  }

  // A first TIMEOUT of -1 switches the check off, and no later setting switches it on.
  lemma NegativeTimeoutSticks(later: seq<int>)
    requires forall i :: 0 <= i < |later| ==> later[i] <= MAX_TIMEOUT
    ensures TimeoutRun(NEW_CLIENT.vars, Settings([-1] + later)).timeout == -1
  {
    UnauthenticatedTimeout([-1] + later);
  }

  // Idle time allowed by one timeout but not by another: a timeout that is not positive allows
  // any.
  ghost predicate NoLaxer(after: int, before: int) {
    before <= 0 || 0 < after <= before
  }

  // Some timeout of ops is set while the client has a user.
  ghost predicate SetByUser(vars: Vars, ops: seq<TimeoutOp>) {
    exists i :: 0 <= i < |ops| && ops[i].SetTo? && UserAfter(vars.user, ops[..i])
  }

  // Whether the client has a user after ops.
  function UserAfter(user: bool, ops: seq<TimeoutOp>): bool
    decreases |ops|
  {
    if ops == [] then user
    else UserAfter(if ops[0].Authenticate? then true else if ops[0].Deauthenticate? then false else user, ops[1..])
  }

  // With authentications and deauthentications in between, a client is only ever given more idle time
  // by a setting made while it has a user.
  lemma {:induction false} OnlyUsersRelaxTimeouts(vars: Vars, ops: seq<TimeoutOp>)
    requires InRange(ops)
    ensures NoLaxer(TimeoutRun(vars, ops).timeout, vars.timeout) || SetByUser(vars, ops)
    decreases |ops|
  {
    if ops != [] {
      var next := TimeoutStep(vars, ops[0]);
      OnlyUsersRelaxTimeouts(next, ops[1..]);
      if SetByUser(next, ops[1..]) {
        var i :| 0 <= i < |ops[1..]| && ops[1..][i].SetTo? && UserAfter(next.user, ops[1..][..i]);
        assert ops[..i + 1][1..] == ops[1..][..i] && ops[i + 1].SetTo?;
      } else if ops[0].SetTo? && vars.user {
        assert UserAfter(vars.user, ops[..0]);
      }
    }
  }

  // Whenever a setting takes effect, it is read back, and fits an int; a negative one reads as 0. It
  // takes effect for a user, for a client without a timeout, and when it is a smaller positive one.
  lemma StoredTimeoutReadsBack(vars: Vars, seconds: int)
    requires seconds <= 2147
    ensures var after, stored := SetTimeout(vars, seconds), if seconds < 0 then -1 else seconds * 1000000;
            if vars.user || vars.timeout == 0 || 0 < stored < vars.timeout then
              after == vars.(timeout := stored) && GetTimeout(after) == (if seconds < 0 then 0 else seconds)
              && -1 <= after.timeout <= 0x7fff_ffff
            else after == vars
  {
    assert seconds * USECS_PER_SEC / USECS_PER_SEC == seconds;
    assert ToInt32(LONG_MAX) == -1;
  }

  // ----- Messages -----

  function AddMessage(cs: ClientState, message: string): ClientState {
    if message == "" then cs else cs.(messages := cs.messages.Push(message))
  }

  function AddMessages(cs: ClientState, messages: seq<string>): ClientState
    decreases |messages|
  {
    if messages == [] then cs else AddMessages(AddMessage(cs, messages[0]), messages[1..])
  }

  // One block of bytes that ends in a terminator, framed and queued.
  function Receive(cs: ClientState, chunk: string): ClientState
    requires Terminated(chunk)
  {
    DrainDefinedIffTerminated(chunk);
    AddMessages(cs, Drain(chunk)).(received := cs.received + chunk)
  }

  // Blocks of bytes that each end in a terminator.
  ghost predicate ChunksOk(chunks: seq<string>) {
    chunks == [] || (chunks[0] != "" && Terminated(chunks[0]) && ChunksOk(chunks[1..]))
  }

  ghost function ReceiveAll(cs: ClientState, chunks: seq<string>): ClientState
    requires ChunksOk(chunks)
    decreases |chunks|
  {
    if chunks == [] then cs else ReceiveAll(Receive(cs, chunks[0]), chunks[1..])
  }

  // One message: too many arguments and it is dropped, else its command runs.
  function Dispatch(cs: ClientState, message: string, exec: Handler): ClientState {
    match Parse(message)
    case None => cs
    case Some(argv) => cs.(vars := exec(cs.vars, argv), log := cs.log + [argv])
  }

  // The messages of a client are processed until none is left or the client is to be destroyed.
  // Each processed message resets the idle time.
  function ProcessMessages(cs: ClientState, exec: Handler): ClientState
    decreases |cs.messages.items|
  {
    var taken := cs.(messages := cs.messages.Dequeue());
    match cs.messages.Rewind().Get()
    case None => taken
    case Some(message) =>
      var done := Dispatch(taken, message, exec);
      if done.vars.destroy then done else ProcessMessages(done.(elapsed := 0), exec)
  }

  lemma {:induction false} AddMessagesQueuesNonEmpty(cs: ClientState, messages: seq<string>)
    requires cs.messages.Ok()
    ensures var r := AddMessages(cs, messages);
            r.messages.items == cs.messages.items + NonEmpty(messages) && r.messages.Ok()
            && r == cs.(messages := r.messages)
    decreases |messages|
  {
    if messages != [] {
      AddMessagesQueuesNonEmpty(AddMessage(cs, messages[0]), messages[1..]);
      assert cs.messages.items + Emit(messages[0]) + NonEmpty(messages[1..])
          == cs.messages.items + (Emit(messages[0]) + NonEmpty(messages[1..]));
    }
  }

  // Every byte received so far is accounted for: the argument vectors obtained so far, followed
  // by those of the pending messages, are exactly the argument vectors in the received bytes.
  ghost predicate StreamOk(cs: ClientState) {
    && cs.messages.Ok()
    && Terminated(cs.received)
    && AllRuns(cs.messages.items, TERMINATORS)
    && CommandsIn(cs.received) == cs.log + ParseAll(cs.messages.items)
  }

  lemma TerminatedConcat(a: string, b: string)
    requires Terminated(a) && Terminated(b)
    ensures Terminated(a + b)
  {
    if b == "" { assert a + b == a; }
  }

  lemma ReceiveQueuesLines(cs: ClientState, chunk: string)
    requires cs.messages.Ok() && Terminated(chunk)
    ensures var r := Receive(cs, chunk);
            && r.messages.items == cs.messages.items + Lines(chunk) && r.messages.Ok()
            && r == cs.(messages := r.messages, received := cs.received + chunk)
  {
    DrainDefinedIffTerminated(chunk);
    DrainYieldsLines(chunk);
    AddMessagesQueuesNonEmpty(cs, Drain(chunk));
  }

  lemma AllRunsAppend(a: seq<string>, b: seq<string>, seps: set<char>)
    requires AllRuns(a, seps) && AllRuns(b, seps)
    ensures AllRuns(a + b, seps)
  {
  }

  lemma ReceiveKeepsStream(cs: ClientState, chunk: string)
    requires StreamOk(cs) && Terminated(chunk)
    ensures StreamOk(Receive(cs, chunk))
    ensures Receive(cs, chunk).messages.items == cs.messages.items + Lines(chunk)
    ensures Receive(cs, chunk).vars == cs.vars && Receive(cs, chunk).elapsed == cs.elapsed
  {
    hide ParseAll, DrainDefined;
    ReceiveQueuesLines(cs, chunk);
    LinesAreClean(chunk);
    AllRunsAppend(cs.messages.items, Lines(chunk), TERMINATORS);
    TerminatedConcat(cs.received, chunk);
    CommandsInConcat(cs.received, chunk);
    ParseAllAppend(cs.messages.items, Lines(chunk));
  }

  lemma {:induction false} ReceiveAllKeepsStream(cs: ClientState, chunks: seq<string>)
    requires StreamOk(cs) && ChunksOk(chunks)
    ensures StreamOk(ReceiveAll(cs, chunks))
    ensures ReceiveAll(cs, chunks).vars == cs.vars && ReceiveAll(cs, chunks).elapsed == cs.elapsed
    ensures ReceiveAll(cs, chunks).received == cs.received + Concat(chunks)
    decreases |chunks|
  {
    hide StreamOk, Drain;
    if chunks != [] {
      ReceiveKeepsStream(cs, chunks[0]);
      ReceiveAllKeepsStream(Receive(cs, chunks[0]), chunks[1..]);
    }
  }

  lemma AllRunsTail(a: seq<string>, seps: set<char>)
    requires AllRuns(a, seps) && a != []
    ensures AllRuns(a[1..], seps)
  {
  }

  lemma DispatchKeepsStream(cs: ClientState, exec: Handler)
    requires StreamOk(cs) && cs.messages.items != []
    ensures StreamOk(Dispatch(cs.(messages := cs.messages.Dequeue()), cs.messages.items[0], exec))
  {
    hide Terminated, AllRuns, CommandsIn, Parse;
    AllRunsTail(cs.messages.items, TERMINATORS);
  }

  lemma {:induction false} ProcessingKeepsStream(cs: ClientState, exec: Handler)
    requires StreamOk(cs)
    ensures StreamOk(ProcessMessages(cs, exec))
    ensures ProcessMessages(cs, exec).received == cs.received
    ensures !ProcessMessages(cs, exec).vars.destroy ==> ProcessMessages(cs, exec).messages.items == []
    ensures ProcessMessages(cs, exec).elapsed == cs.elapsed
         || (ProcessMessages(cs, exec).elapsed == 0 && cs.messages.items != [])
    ensures cs.messages.items != [] && !ProcessMessages(cs, exec).vars.destroy ==>
              ProcessMessages(cs, exec).elapsed == 0
    decreases |cs.messages.items|
  {
    if cs.messages.items != [] {
      var taken := cs.(messages := cs.messages.Dequeue());
      DispatchKeepsStream(cs, exec);
      var done := Dispatch(taken, cs.messages.items[0], exec);
      if !done.vars.destroy {
        ProcessingKeepsStream(done.(elapsed := 0), exec);
      }
    }
  }

  function RunCommands(vars: Vars, argvs: seq<seq<string>>, exec: Handler): Vars
    decreases |argvs|
  {
    if argvs == [] then vars else RunCommands(exec(vars, argvs[0]), argvs[1..], exec)
  }

  // The first n of the pending commands ran: all of them, or up to and including the first one
  // after which the client is to be destroyed.
  ghost predicate RanPrefix(vars: Vars, pending: seq<seq<string>>, n: int, after: Vars, exec: Handler) {
    && 0 <= n <= |pending|
    && after == RunCommands(vars, pending[..n], exec)
    && (forall k :: 0 <= k < n ==> !RunCommands(vars, pending[..k], exec).destroy)
    && (!after.destroy ==> n == |pending|)
  }

  lemma RunCommandsCons(vars: Vars, argv: seq<string>, rest: seq<seq<string>>, k: nat, exec: Handler)
    requires k <= |rest|
    ensures RunCommands(vars, ([argv] + rest)[..k + 1], exec) == RunCommands(exec(vars, argv), rest[..k], exec)
  {
    assert ([argv] + rest)[..k + 1] == [argv] + rest[..k];
  }

  lemma RanPrefixCons(vars: Vars, argv: seq<string>, rest: seq<seq<string>>, n: int, after: Vars, exec: Handler)
    requires !vars.destroy && RanPrefix(exec(vars, argv), rest, n, after, exec)
    ensures RanPrefix(vars, [argv] + rest, n + 1, after, exec)
  {
    var pending := [argv] + rest;
    RunCommandsCons(vars, argv, rest, n, exec);
    forall k | 0 <= k < n + 1
      ensures !RunCommands(vars, pending[..k], exec).destroy
    {
      if k > 0 { RunCommandsCons(vars, argv, rest, k - 1, exec); }
    }
  }

  // From cs to r, a first part of pending ran, and exactly that part was logged.
  ghost predicate Progress(cs: ClientState, r: ClientState, pending: seq<seq<string>>, exec: Handler) {
    var n := |r.log| - |cs.log|;
    RanPrefix(cs.vars, pending, n, r.vars, exec) && r.log == cs.log + pending[..n]
  }

  lemma ProgressCons(cs: ClientState, argv: seq<string>, done: ClientState, r: ClientState,
                     rest: seq<seq<string>>, exec: Handler)
    requires !cs.vars.destroy && done.vars == exec(cs.vars, argv) && done.log == cs.log + [argv]
    requires Progress(done, r, rest, exec)
    ensures Progress(cs, r, [argv] + rest, exec)
  {
    var n := |r.log| - |done.log|;
    RanPrefixCons(cs.vars, argv, rest, n, r.vars, exec);
    assert ([argv] + rest)[..n + 1] == [argv] + rest[..n];
  }

  lemma ProgressNone(cs: ClientState, pending: seq<seq<string>>, exec: Handler)
    requires cs.vars.destroy || pending == []
    ensures Progress(cs, cs, pending, exec)
  {
  }

  lemma ProgressSame(cs: ClientState, done: ClientState, r: ClientState, pending: seq<seq<string>>, exec: Handler)
    requires done.vars == cs.vars && done.log == cs.log && Progress(done, r, pending, exec)
    ensures Progress(cs, r, pending, exec)
  {
  }

  // Processing obtains argument vectors in order, each once, and stops at the first command that
  // sets the destroy flag, and only there.
  lemma {:induction false} ProcessingStopsAtDestroy(cs: ClientState, exec: Handler)
    requires cs.messages.Ok() && !cs.vars.destroy
    ensures Progress(cs, ProcessMessages(cs, exec), ParseAll(cs.messages.items), exec)
    decreases |cs.messages.items|
  {
    hide Progress, Parse;
    var items, r := cs.messages.items, ProcessMessages(cs, exec);
    if items == [] {
      ProgressNone(r, [], exec);
      ProgressSame(cs, r, r, [], exec);
    } else {
      var done := Dispatch(cs.(messages := cs.messages.Dequeue()), items[0], exec);
      var rest := ParseAll(items[1..]);
      if done.vars.destroy {
        ProgressNone(done, rest, exec);
      } else {
        ProcessingStopsAtDestroy(done.(elapsed := 0), exec);
        ProgressSame(done, done.(elapsed := 0), r, rest, exec);
      }
      match Parse(items[0])
      case None => ProgressSame(cs, done, r, rest, exec);
      case Some(argv) => ProgressCons(cs, argv, done, r, rest, exec);
    }
  }
}

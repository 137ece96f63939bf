/**
 The client record, updated in place, and the parsing of one message on its behalf.
 */
module ClientRecord {
  import opened Common
  import opened CursorQueue
  import opened CommandLine
  import opened Flattening
  import opened Clients

  // Reads a C string out of a buffer.
  method CString(space: array<char>, from: nat, ghost t: string) returns (s: string)
    requires from + |t| < space.Length && space[from..from + |t|] == t
    requires space[from + |t|] == '\0' && '\0' !in t
    ensures s == t
  {
    forall m | from <= m < from + |t| ensures space[m] != '\0' {
      assert space[m] == t[m - from];
    }
    var to := from;
    while space[to] != '\0'
      invariant from <= to <= from + |t|
      decreases from + |t| - to
    {
      to := to + 1;
    }
    s := space[from..to];
  }

  lemma SliceOfPrefix(s: seq<char>, n: nat, a: nat, b: nat)
    requires a <= b <= n <= |s|
    ensures s[..n][a..b] == s[a..b]
  {
  }

  lemma ArgumentInBuffer(str: string, space: seq<char>, k: nat)
    requires k < |Tokens(str)| && |Packed(Tokens(str))| <= |space|
    requires space[..|Packed(Tokens(str))|] == Packed(Tokens(str))
    ensures var off, t := Start(Tokens(str), k), Tokens(str)[k];
            && off + |t| < |space| && space[off..off + |t|] == t && space[off + |t|] == '\0'
            && '\0' !in t
  {
    PackedSlice(Tokens(str), k);
    TokensAreClean(str);
    var off, t := Start(Tokens(str), k), Tokens(str)[k];
    SliceOfPrefix(space, |Packed(Tokens(str))|, off, off + |t|);
  }

  // Reads the argument vector back from the tokenizer's buffers.
  method Arguments(str: string, argc: nat, argSpace: array<char>, argv: array<Option<nat>>)
    returns (args: seq<string>)
    requires argc == |Tokens(str)| <= argv.Length
    requires |Packed(Tokens(str))| <= argSpace.Length
    requires argSpace[..|Packed(Tokens(str))|] == Packed(Tokens(str))
    requires forall k :: 0 <= k < argc ==> argv[k] == Some(Start(Tokens(str), k))
    ensures args == Tokens(str)
  {
    ghost var toks := Tokens(str);
    args := [];
    for k := 0 to argc
      invariant args == toks[..k]
    {
      ArgumentInBuffer(str, argSpace[..], k);
      var arg := CString(argSpace, argv[k].value, toks[k]);
      args := args + [arg];
    }
  }

  class Client {
    var sock: int
    var timeout: int
    var elapsed: int
    var user: bool
    var destroy: bool
    var messages: Queue<string>
    ghost var received: string
    ghost var log: seq<seq<string>>

    ghost function State(): ClientState
      reads this, messages
    {
      ClientState(Vars(timeout, user, destroy), elapsed, messages.State(), received, log)
    }

    // Memory for a record, before client_create fills it in.
    constructor ()
    {
      sock, timeout, elapsed, user, destroy := -1, 0, 0, false, false;
      messages := new Queue<string>();
      received, log := "", [];
    }

    method Create(fd: int)
      modifies this
      ensures sock == fd && State() == NEW_CLIENT && fresh(messages)
    {
      messages := new Queue<string>();
      user, timeout, elapsed, destroy := false, 0, 0, false;
      sock := fd;
      received, log := "", [];
    }

    method CheckTimeout(tDiff: int)
      modifies this
      ensures State() == Clients.CheckTimeout(old(State()), tDiff)
      ensures messages == old(messages) && sock == old(sock)
    {
      elapsed := elapsed + tDiff;
      if timeout > 0 && elapsed >= timeout {
        destroy := true;
      }
    }

    method SetTimeout(seconds: int)
      requires seconds <= MAX_TIMEOUT
      modifies this
      ensures State() == old(State()).(vars := Clients.SetTimeout(old(State().vars), seconds))
      ensures messages == old(messages) && sock == old(sock)
    {
      var timeout2 := if seconds < 0 then ToInt32(LONG_MAX) else seconds * USECS_PER_SEC;
      if user {
        timeout := timeout2;
      } else if timeout == 0 || (timeout2 > 0 && timeout2 < timeout) {
        timeout := timeout2;
      }
    }

    method ResetElapsedTime()
      modifies this
      ensures State() == old(State()).(elapsed := 0)
      ensures messages == old(messages) && sock == old(sock)
    {
      elapsed := 0;
    }

    method AddMessage(message: string)
      modifies messages
      ensures State() == Clients.AddMessage(old(State()), message)
    {
      if |message| > 0 {
        messages.Push(message);
      }
    }

    method GetMessage() returns (r: Option<string>)
      requires messages.Valid()
      modifies messages
      ensures State() == old(State()).(messages := old(State()).messages.Dequeue())
      ensures r == old(State()).messages.Rewind().Get()
    {
      r := messages.Dequeue();
    }

    // One message: it is tokenized, and its command runs unless there are too many arguments.
    method ParseMessage(str: string, exec: Handler)
      requires '\0' !in str
      modifies this
      ensures State() == Dispatch(old(State()), str, exec)
      ensures messages == old(messages) && sock == old(sock)
    {
      var error, argc, argSpace, argv := CommandLine.ParseMessage(str);
      if error {
        return;
      }
      var args := Arguments(str, argc, argSpace, argv);
      var vars := exec(Vars(timeout, user, destroy), args);
      timeout, user, destroy := vars.timeout, vars.user, vars.destroy;
      log := log + [args];
    }
  }
}

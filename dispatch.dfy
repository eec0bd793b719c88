/**
 * Command dispatch: the first byte a client sends selects a command, and the
 * handler registered for that command is looked up.
 */
module Dispatch {
  import opened Bytes
  import opened ServerErrors
  import opened Streaming

  datatype CommandType = Upload | Download | Statistics

  /** The two handler functions a server can register. */
  datatype Handler = FileRequestHandler | NoOpHandler

  /** The byte a client sends to ask for a command. */
  function WireCode(c: CommandType): (b: byte)
    ensures 1 <= b <= 3
  {
    match c
    case Download => 1
    case Upload => 2
    case Statistics => 3
  }

  /** The outcome of the one-byte read of the command. A read that returns no
      bytes (the client closed first) leaves the zero the buffer starts with. */
  datatype CommandRead = ReadFailed(error: IoError) | EndOfStream | CommandByte(value: byte)

  /** The byte in the buffer after a successful read. */
  function ByteRead(read: CommandRead): byte
    requires !read.ReadFailed?
  {
    if read.EndOfStream? then 0 else read.value
  }

  /** What dispatch does with a connection: route it to a handler, refuse it
      with an error, or panic with a message. */
  datatype Dispatched =
    | Routed(handler: Handler, command: CommandType)
    | Refused(error: FileServerError)
    | Halted(message: string)

  const UnsupportedCommand: string := "unsupported command type"

  /** The command byte is read, 1 and 3 select Download and Statistics, 2
      and every other value panic, and the selected command needs a
      registered handler. */
  function DetermineHandler(handlers: map<CommandType, Handler>, read: CommandRead): (r: Dispatched)
    ensures read.ReadFailed? ==> r == Refused(FailedToParseCommand(read.error.message))
    ensures r.Routed? <==> !read.ReadFailed? && exists c :: c in handlers && c != Upload && WireCode(c) == ByteRead(read)
    ensures r.Routed? ==> r.command != Upload && WireCode(r.command) == ByteRead(read)
                          && r.command in handlers && r.handler == handlers[r.command]
    ensures r.Halted? <==> !read.ReadFailed? && ByteRead(read) != 1 && ByteRead(read) != 3
    ensures !read.ReadFailed? ==> (r.Refused? <==>
              (ByteRead(read) == 1 && Download !in handlers) || (ByteRead(read) == 3 && Statistics !in handlers))
    ensures r.Refused? && !read.ReadFailed? ==> r.error == FailedToParseCommand(UnsupportedCommand)
    ensures r.Halted? ==> r.message == if ByteRead(read) == 2 then "upload not implemented" else "not implemented"
  {
    match read
    case ReadFailed(error) => Refused(FailedToParseCommand(error.message))
    case _ =>
      var b := ByteRead(read);
      if b == 1 || b == 3 then
        var command := if b == 1 then Download else Statistics;
        if command in handlers then Routed(handlers[command], command)
        else Refused(FailedToParseCommand(UnsupportedCommand))
      else if b == 2 then Halted("upload not implemented")
      else Halted("not implemented")
  }

  /** A client asking for a registered Download or Statistics command is
      routed to its handler; a client asking for Upload panics whatever is
      registered. */
  lemma ClientCommandRouted(handlers: map<CommandType, Handler>, c: CommandType)
    ensures c != Upload && c in handlers ==>
      DetermineHandler(handlers, CommandByte(WireCode(c))) == Routed(handlers[c], c)
    ensures c != Upload && c !in handlers ==>
      DetermineHandler(handlers, CommandByte(WireCode(c))) == Refused(FailedToParseCommand(UnsupportedCommand))
    ensures c == Upload ==>
      DetermineHandler(handlers, CommandByte(WireCode(c))) == Halted("upload not implemented")
  {
  }

  /** The handler table after inserting `pairs` into `table` in order. */
  function Registered(table: map<CommandType, Handler>, pairs: seq<(CommandType, Handler)>): map<CommandType, Handler> {
    if pairs == [] then table
    else
      var last := pairs[|pairs| - 1];
      Registered(table, pairs[..|pairs| - 1])[last.0 := last.1]
  }

  /** Registration keeps every earlier command and adds each registered
      one, and nothing else. */
  lemma {:induction false} RegisteredKeys(table: map<CommandType, Handler>, pairs: seq<(CommandType, Handler)>, c: CommandType)
    ensures c in Registered(table, pairs) <==> c in table || exists i :: 0 <= i < |pairs| && pairs[i].0 == c
  {
    if pairs != [] {
      var init := pairs[..|pairs| - 1];
      RegisteredKeys(table, init, c);
      if exists i :: 0 <= i < |init| && init[i].0 == c {
        var i :| 0 <= i < |init| && init[i].0 == c;
        assert pairs[i] == init[i];
      }
      if exists i :: 0 <= i < |pairs| && pairs[i].0 == c {
        var i :| 0 <= i < |pairs| && pairs[i].0 == c;
        if i < |init| {
          assert init[i] == pairs[i];
        }
      }
    }
  }

  /** When a command is registered more than once, the last registration
      sets its handler. */
  lemma {:induction false} LaterRegistrationWins(table: map<CommandType, Handler>, pairs: seq<(CommandType, Handler)>, i: nat)
    requires i < |pairs| && forall j :: i < j < |pairs| ==> pairs[j].0 != pairs[i].0
    ensures pairs[i].0 in Registered(table, pairs) && Registered(table, pairs)[pairs[i].0] == pairs[i].1
  {
    if i < |pairs| - 1 {
      var init := pairs[..|pairs| - 1];
      forall j | i < j < |init| ensures init[j].0 != init[i].0 {
        assert init[j] == pairs[j] && init[i] == pairs[i];
      }
      LaterRegistrationWins(table, init, i);
      assert init[i] == pairs[i];
    }
  }

  /** A command that is not registered keeps the handler the table had. */
  lemma {:induction false} UnregisteredKept(table: map<CommandType, Handler>, pairs: seq<(CommandType, Handler)>, c: CommandType)
    requires c in table && forall i :: 0 <= i < |pairs| ==> pairs[i].0 != c
    ensures c in Registered(table, pairs) && Registered(table, pairs)[c] == table[c]
  {
    if pairs != [] {
      var init := pairs[..|pairs| - 1];
      forall i | 0 <= i < |init| ensures init[i].0 != c {
        assert init[i] == pairs[i];
      }
      UnregisteredKept(table, init, c);
    }
  }
}

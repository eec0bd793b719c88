/** The server's error taxonomy and the text each error shows the client. */
module ServerErrors {

  /** The four error kinds of the connection core; each carries a reason. */
  datatype FileServerError =
    | FailedToInitFTPServer(reason: string)
    | FailedToParseRequest(reason: string)
    | FailedToParseCommand(reason: string)
    | ServerReadError(reason: string)

  /** The human-readable text written to the client for an error: a fixed
      prefix per kind followed by the reason; a read error ignores its reason. */
  function Display(e: FileServerError): (text: string)
    ensures |text| > 0
    ensures !e.ServerReadError? ==> |e.reason| < |text| && text[|text| - |e.reason|..] == e.reason
    ensures e.ServerReadError? ==> text == "Client read deadline"
  {
    match e
    case FailedToInitFTPServer(reason) => "Could not init FTPServer: " + reason
    case FailedToParseRequest(reason) => "Could not parse filename in request: " + reason
    case FailedToParseCommand(reason) => "Could not parse command in request: " + reason
    case ServerReadError(_) => "Client read deadline"
  }

  /** The text tells the error apart: two errors that display the same are the
      same error, except that every read error displays alike. */
  lemma DisplayDistinguishesErrors(a: FileServerError, b: FileServerError)
    requires Display(a) == Display(b)
    ensures a == b || (a.ServerReadError? && b.ServerReadError?)
  {
    var t := Display(a);
    if a.ServerReadError? || b.ServerReadError? {
      // "Client ..." and "Could ..." already differ in their length or their second character
    } else {
      // the character at 10 separates "init" from "parse", the one at 16 "filename" from "command"
      assert a.FailedToInitFTPServer? <==> t[10] == 'i';
      assert b.FailedToInitFTPServer? <==> t[10] == 'i';
      assert a.FailedToParseRequest? <==> t[16] == 'f';
      assert b.FailedToParseRequest? <==> t[16] == 'f';
      assert a.reason == t[|t| - |a.reason|..];
      var p := |t| - |a.reason|;
      assert a.FailedToInitFTPServer? ==> p == 26;
      assert b.FailedToInitFTPServer? ==> |t| - |b.reason| == 26;
      assert a.FailedToParseRequest? ==> p == 37;
      assert b.FailedToParseRequest? ==> |t| - |b.reason| == 37;
      assert a.FailedToParseCommand? ==> p == 36;
      assert b.FailedToParseCommand? ==> |t| - |b.reason| == 36;
    }
  }
}

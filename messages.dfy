/**
 * The message envelope and the dispatch of messages that arrive from the
 * script side (MessagesFromJS in src/main.cc), with the two handlers it
 * routes to. The byte-level FlatBuffers encoding is abstract: a buffer is a
 * byte sequence, its structural verification is a predicate `verify` and
 * reading its root table is a function `getRoot`, both given by the caller.
 * The handlers' effects on the outside world are returned as an Effect value.
 */
module Messages {

  /** cmd_id is a uint32_t. */
  type Uint32 = x: int | 0 <= x < 0x1_0000_0000

  /**
   * The message union `Any`: its tag and the fields this model reads. Tags of
   * the schema that src/main.cc does not name are Unlisted.
   */
  datatype Any =
    | NONE
    | Start
    | CodeFetch(moduleSpecifier: string, containingFile: string)
    | StartRes(startCwd: string, startArgv: seq<string>)
    | Unlisted(code: nat)

  /** The root table Base: the command id and the message union. */
  datatype Base = Base(cmdId: Uint32, msg: Any)

  datatype FatalReason = NoneTag | UnhandledMessage

  /**
   * What handling one message does: set the synchronous response, pass a
   * module request on to the resolver (which answers later under the same
   * cmd_id), or stop the process with a failed CHECK.
   */
  datatype Effect =
    | SetResponse(response: Base)
    | ForwardCodeFetch(cmdId: Uint32, moduleSpecifier: string, containingFile: string)
    | Fatal(reason: FatalReason)

  /**
   * HandleStart: the StartRes answers the request's cmd_id with the working
   * directory and every process argument, in order. `cwd` is what getcwd
   * reported and `argv` holds the global_argc arguments.
   */
  method HandleStart(cmdId: Uint32, cwd: string, argv: seq<string>) returns (response: Base)
    ensures response.cmdId == cmdId
    ensures response.msg.StartRes?
    ensures response.msg.startCwd == cwd
    ensures |response.msg.startArgv| == |argv|
    ensures forall i :: 0 <= i < |argv| ==> response.msg.startArgv[i] == argv[i]
  {
    var args: seq<string> := [];
    var i := 0;
    while i < |argv|
      invariant 0 <= i <= |argv|
      invariant args == argv[..i]
    {
      args := args + [argv[i]];
      i := i + 1;
    }
    response := Base(cmdId, StartRes(cwd, args));
  }

  /**
   * HandleCodeFetch: hands the request's cmd_id and both strings, unchanged,
   * to the resolver and sets no response of its own.
   */
  function HandleCodeFetch(cmdId: Uint32, msg: Any): (e: Effect)
    requires msg.CodeFetch?
    ensures e.ForwardCodeFetch? && e.cmdId == cmdId
    ensures e.moduleSpecifier == msg.moduleSpecifier && e.containingFile == msg.containingFile
  {
    ForwardCodeFetch(cmdId, msg.moduleSpecifier, msg.containingFile)
  }

  /**
   * MessagesFromJS: only a buffer that passes verification is read. Start is
   * answered by HandleStart and CodeFetch forwarded by HandleCodeFetch, both
   * with the envelope's cmd_id; NONE and every other tag are fatal.
   */
  method MessagesFromJS(verify: seq<bv8> -> bool, getRoot: seq<bv8> -> Base, data: seq<bv8>,
                        cwd: string, argv: seq<string>)
    returns (e: Effect)
    requires verify(data)
    ensures getRoot(data).msg.Start? <==> e.SetResponse?
    ensures e.SetResponse? ==>
      && e.response.cmdId == getRoot(data).cmdId
      && e.response.msg == StartRes(cwd, argv)
    ensures getRoot(data).msg.CodeFetch? <==> e.ForwardCodeFetch?
    ensures e.ForwardCodeFetch? ==>
      e == ForwardCodeFetch(getRoot(data).cmdId, getRoot(data).msg.moduleSpecifier,
                            getRoot(data).msg.containingFile)
    ensures getRoot(data).msg.NONE? <==> e == Fatal(NoneTag)
    ensures !(getRoot(data).msg.Start? || getRoot(data).msg.CodeFetch? || getRoot(data).msg.NONE?)
            <==> e == Fatal(UnhandledMessage)
  {
    var base := getRoot(data);
    match base.msg {
      case Start =>
        var response := HandleStart(base.cmdId, cwd, argv);
        e := SetResponse(response);
      case CodeFetch(_, _) =>
        e := HandleCodeFetch(base.cmdId, base.msg);
      case NONE =>
        e := Fatal(NoneTag);
      case _ =>
        e := Fatal(UnhandledMessage);
    }
  }
}

/** ApacheFTPTransport: moves large attachments to and from the SMEV FTP
    store. Each transfer opens its own session on the one FTP client: connect to
    the configured address, check the server is available, log in with the
    attachment's credentials, switch to binary mode, run the operation, then
    log out and disconnect. Every failure surfaces as one SMEVRuntimeException
    (Transfer here); a failure while disconnecting is only logged. The FTP
    client answers from a script chosen by the caller and records every call. */
module ApacheFtpTransport {
  import opened Base
  import opened Sdk

  // ---------------------------------------------------------------------------
  // The FTP client (commons-net FTPClient), scripted

  datatype FtpCall =
    | SetControlEncoding(charset: string)
    | Connect(host: string, port: Option<int>)
    | IsAvailable
    | EnterLocalPassiveMode
    | Login(user: Option<string>, password: Option<string>)
    | SetBinaryFileType
    | RetrieveFile(remote: string)
    | MakeDirectory(dir: string)
    | ChangeWorkingDirectory(dir: string)
    | StoreFile(remote: string, data: Bytes)
    | IsConnected
    | Logout
    | Disconnect

  /** The client's answer: the boolean it returns (and, for a retrieval, the
      bytes it wrote to the output stream), or the exception it raises. */
  datatype FtpReply = Replied(ok: bool, data: Bytes) | Raised(reason: string)

  type Script = FtpCall -> FtpReply

  /** The control-connection encoding connect sets before anything else. */
  const UTF8: string := "UTF-8"

  class FtpClient {
    const script: Script
    var calls: seq<FtpCall>

    constructor (script: Script)
      ensures this.script == script && calls == []
    {
      this.script := script;
      calls := [];
    }

    method Call(c: FtpCall) returns (r: FtpReply)
      modifies this
      ensures r == script(c) && calls == old(calls) + [c]
    {
      r := script(c);
      calls := calls + [c];
    }

    /** A client-local setting: recorded in the trace, sends nothing and never raises. */
    method Set(c: FtpCall) returns ()
      modifies this
      ensures calls == old(calls) + [c]
    {
      calls := calls + [c];
    }
  }

  /** A reply that neither raises nor reports false. */
  predicate Succeeds(r: FtpReply) {
    r.Replied? && r.ok
  }

  // ---------------------------------------------------------------------------
  // The server address

  /** String.split(":", 2): the text before the first ':' and, if there is
      one, everything after it. */
  function SplitAtColon(s: string): (parts: seq<string>)
    ensures 1 <= |parts| <= 2
    ensures |parts| == 1 <==> ':' !in s
    ensures ':' !in parts[0]
    ensures |parts| == 1 ==> parts[0] == s
    ensures |parts| == 2 ==> parts[0] + ":" + parts[1] == s
  {
    if s == [] then [""]
    else if s[0] == ':' then
      assert s == "" + ":" + s[1..];
      ["", s[1..]]
    else
      var rest := SplitAtColon(s[1..]);
      assert s == [s[0]] + s[1..];
      [[s[0]] + rest[0]] + rest[1..]
  }

  /** Where connect goes: a host alone, or a host and a port parsed with
      Integer.parseInt. A null address or a port that does not parse fails the
      connect step. */
  function Target(address: Option<string>): (r: Result<(string, Option<int>)>)
    ensures address.None? ==> r.Err?
    ensures address.Some? && ':' !in address.value ==> r == Ok((address.value, None))
    ensures r.Err? ==> r.error.Transfer?
    ensures r.Ok? ==> ':' !in r.value.0
  {
    if address.None? then Err(Transfer("no address"))
    else
      var parts := SplitAtColon(address.value);
      if |parts| == 1 then Ok((parts[0], None))
      else
        match ParseDecimal(parts[1], INT_MIN, INT_MAX)
        case Some(port) => Ok((parts[0], Some(port)))
        case None => Err(Transfer("For input string: \"" + parts[1] + "\""))
  }

  /** The address splits at its first colon, and the two parts give it back. */
  lemma {:induction false} TargetSplitsAtFirstColon(host: string, port: int)
    requires ':' !in host && INT_MIN <= port <= INT_MAX
    ensures Target(Some(host + ":" + Decimal(port))) == Ok((host, Some(port)))
  {
    var address := host + ":" + Decimal(port);
    var parts := SplitAtColon(address);
    SplitPrefixUnique(host, Decimal(port), parts);
    DecimalRoundTrip(port, INT_MIN, INT_MAX);
  }

  /** Splitting text that starts with a colon-free part at a colon yields that part and the rest. */
  lemma {:induction false} SplitPrefixUnique(host: string, rest: string, parts: seq<string>)
    requires ':' !in host && parts == SplitAtColon(host + ":" + rest)
    ensures parts == [host, rest]
    decreases |host|
  {
    var s := host + ":" + rest;
    if host == [] {
      assert s[0] == ':' && s[1..] == rest;
    } else {
      assert s[0] == host[0] && s[1..] == host[1..] + ":" + rest;
      assert ':' !in host[1..] by {
        forall i | 0 <= i < |host[1..]| ensures host[1..][i] != ':' {
          assert host[1..][i] == host[i + 1];
        }
      }
      SplitPrefixUnique(host[1..], rest, SplitAtColon(s[1..]));
      assert [host[0]] + host[1..] == host;
    }
  }

  // ---------------------------------------------------------------------------
  // Session phases

  /** The calls a phase made and how it ended. */
  datatype Phase = Phase(calls: seq<FtpCall>, outcome: Outcome)

  /** connect(login, password): set the control encoding, connect, check
      availability, enter local passive mode, log in, binary mode. A reply code
      reported together with a successful login is only logged. */
  function ConnectPhase(script: Script, address: Option<string>, user: Option<string>,
                        password: Option<string>): (p: Phase)
    ensures p.outcome.Fail? ==> p.outcome.error.Transfer?
    ensures Disconnect !in p.calls && Logout !in p.calls && IsConnected !in p.calls
    ensures forall i :: 0 <= i < |p.calls| ==> !p.calls[i].StoreFile?
    ensures |p.calls| >= 1 && p.calls[0] == SetControlEncoding(UTF8)
    ensures p.outcome == Pass ==> Login(user, password) in p.calls && EnterLocalPassiveMode in p.calls &&
                                  p.calls[|p.calls| - 1] == SetBinaryFileType
  {
    var e := SetControlEncoding(UTF8);
    match Target(address)
    case Err(err) => Phase([e], Fail(err))
    case Ok(t) =>
      var c := Connect(t.0, t.1);
      match script(c)
      case Raised(why) => Phase([e, c], Fail(Transfer(why)))
      case Replied(_, _) =>
        match script(IsAvailable)
        case Raised(why) => Phase([e, c, IsAvailable], Fail(Transfer(why)))
        case Replied(up, _) =>
          if !up then Phase([e, c, IsAvailable], Fail(Transfer("server not available")))
          else
            var l := Login(user, password);
            var pre := [e, c, IsAvailable, EnterLocalPassiveMode, l];
            match script(l)
            case Raised(why) => Phase(pre, Fail(Transfer(why)))
            case Replied(ok, _) =>
              if !ok then Phase(pre, Fail(Transfer("login refused")))
              else
                match script(SetBinaryFileType)
                case Raised(why) => Phase(pre + [SetBinaryFileType], Fail(Transfer(why)))
                case Replied(_, _) => Phase(pre + [SetBinaryFileType], Pass)
  }

  /** disconnect(): log out if still connected, then disconnect; any exception
      ends the phase and is swallowed. */
  function DisconnectCalls(script: Script): (calls: seq<FtpCall>)
    ensures |calls| >= 1 && calls[0] == IsConnected
    ensures forall i :: 0 <= i < |calls| ==> !calls[i].StoreFile?
    ensures Logout in calls <==> Succeeds(script(IsConnected))
    ensures Disconnect in calls <==>
              script(IsConnected).Replied? && (script(IsConnected).ok ==> script(Logout).Replied?)
  {
    match script(IsConnected)
    case Raised(_) => [IsConnected]
    case Replied(connected, _) =>
      if !connected then [IsConnected, Disconnect]
      else
        match script(Logout)
        case Raised(_) => [IsConnected, Logout]
        case Replied(_, _) => [IsConnected, Logout, Disconnect]
  }

  /** Calls made in order until the first one that raises or reports false;
      that one fails the phase. */
  function Steps(script: Script, steps: seq<FtpCall>): (p: Phase)
    ensures p.calls <= steps
    ensures p.outcome == Pass <==> p.calls == steps && forall i :: 0 <= i < |steps| ==> Succeeds(script(steps[i]))
    ensures p.outcome.Fail? ==>
              p.calls != [] && !Succeeds(script(p.calls[|p.calls| - 1])) &&
              forall i :: 0 <= i < |p.calls| - 1 ==> Succeeds(script(p.calls[i]))
    ensures p.outcome.Fail? ==> p.outcome.error.Transfer?
  {
    if steps == [] then Phase([], Pass)
    else
      match script(steps[0])
      case Raised(why) => Phase([steps[0]], Fail(Transfer(why)))
      case Replied(ok, _) =>
        if !ok then Phase([steps[0]], Fail(Transfer("request refused")))
        else
          var rest := Steps(script, steps[1..]);
          var calls := [steps[0]] + rest.calls;
          assert forall i :: 1 <= i < |calls| ==> calls[i] == rest.calls[i - 1];
          assert forall i :: 1 <= i < |steps| ==> steps[i] == steps[1..][i - 1];
          Phase(calls, rest.outcome)
  }

  // ---------------------------------------------------------------------------
  // Whole sessions

  /** A download: the bytes retrieveFile wrote, the calls and the outcome. */
  datatype Session = Session(calls: seq<FtpCall>, outcome: Outcome, received: Bytes)

  function DownloadSession(script: Script, address: Option<string>, details: TransportDetails,
                           fileRef: string): (s: Session)
    ensures s.outcome.Fail? ==> s.outcome.error.Transfer?
  {
    var cp := ConnectPhase(script, address, details.userName, details.password);
    if cp.outcome.Fail? then Session(cp.calls, cp.outcome, [])
    else
      var rc := RetrieveFile(fileRef);
      var tail := [rc] + DisconnectCalls(script);
      match script(rc)
      case Raised(why) => Session(cp.calls + tail, Fail(Transfer(why)), [])
      case Replied(ok, data) =>
        Session(cp.calls + tail, if ok then Pass else Fail(Transfer("download failure")), data)
  }

  /** The steps of an upload: create the directory named after the UUID, enter
      it, store the file. */
  function UploadSteps(uuid: string, fileRef: string, content: Bytes): seq<FtpCall> {
    [MakeDirectory(uuid), ChangeWorkingDirectory(uuid), StoreFile(fileRef, content)]
  }

  function UploadSession(script: Script, address: Option<string>, details: TransportDetails,
                         uuid: string, fileRef: string, content: Bytes): (p: Phase)
    ensures p.outcome.Fail? ==> p.outcome.error.Transfer?
  {
    var cp := ConnectPhase(script, address, details.userName, details.password);
    if cp.outcome.Fail? then cp
    else
      var op := Steps(script, UploadSteps(uuid, fileRef, content));
      Phase(cp.calls + op.calls + DisconnectCalls(script), op.outcome)
  }

  // ---------------------------------------------------------------------------
  // The transport

  class ApacheFtpTransport {
    const address: Option<string>
    const client: FtpClient

    /** The address comes from the large-attachment transport configuration. */
    constructor (address: Option<string>, client: FtpClient)
      ensures this.address == address && this.client == client
    {
      this.address := address;
      this.client := client;
    }

    method ConnectAndLogin(user: Option<string>, password: Option<string>) returns (r: Outcome)
      modifies client
      ensures var p := ConnectPhase(client.script, address, user, password);
              r == p.outcome && client.calls == old(client.calls) + p.calls
    {
      var e := SetControlEncoding(UTF8);
      ghost var start := client.calls;
      client.Set(e);
      var target := Target(address);
      if target.Err? {
        return Fail(target.error);
      }
      var c := Connect(target.value.0, target.value.1);
      var l := Login(user, password);
      var reply := client.Call(c);
      if reply.Raised? {
        return Fail(Transfer(reply.reason));
      }
      reply := client.Call(IsAvailable);
      assert client.calls == start + [e, c, IsAvailable];
      if reply.Raised? {
        return Fail(Transfer(reply.reason));
      }
      if !reply.ok {
        return Fail(Transfer("server not available"));
      }
      client.Set(EnterLocalPassiveMode);
      reply := client.Call(l);
      assert client.calls == start + [e, c, IsAvailable, EnterLocalPassiveMode, l];
      if reply.Raised? {
        return Fail(Transfer(reply.reason));
      }
      if !reply.ok {
        return Fail(Transfer("login refused"));
      }
      reply := client.Call(SetBinaryFileType);
      assert client.calls == start + [e, c, IsAvailable, EnterLocalPassiveMode, l, SetBinaryFileType];
      if reply.Raised? {
        return Fail(Transfer(reply.reason));
      }
      r := Pass;
    }

    method DisconnectQuietly()
      modifies client
      ensures client.calls == old(client.calls) + DisconnectCalls(client.script)
    {
      var reply := client.Call(IsConnected);
      if reply.Raised? {
        return;
      }
      if reply.ok {
        reply := client.Call(Logout);
        if reply.Raised? {
          return;
        }
      }
      reply := client.Call(Disconnect);
    }

    /** download(attachment, out): the bytes retrieved go to the caller's stream. */
    method Download(details: TransportDetails, fileRef: string) returns (r: Outcome, received: Bytes)
      modifies client
      ensures var s := DownloadSession(client.script, address, details, fileRef);
              r == s.outcome && received == s.received && client.calls == old(client.calls) + s.calls
    {
      ghost var start := client.calls;
      ghost var cp := ConnectPhase(client.script, address, details.userName, details.password);
      r := ConnectAndLogin(details.userName, details.password);
      if r.Fail? {
        return r, [];
      }
      var reply := client.Call(RetrieveFile(fileRef));
      ConcatAssoc(start, cp.calls, [RetrieveFile(fileRef)]);
      if reply.Raised? {
        r, received := Fail(Transfer(reply.reason)), [];
      } else {
        r, received := if reply.ok then Pass else Fail(Transfer("download failure")), reply.data;
      }
      DisconnectQuietly();
      ConcatAssoc(start, cp.calls + [RetrieveFile(fileRef)], DisconnectCalls(client.script));
      ConcatAssoc(cp.calls, [RetrieveFile(fileRef)], DisconnectCalls(client.script));
    }

    /** upload(attachment, in). */
    method Upload(details: TransportDetails, uuid: string, fileRef: string, content: Bytes) returns (r: Outcome)
      modifies client
      ensures var p := UploadSession(client.script, address, details, uuid, fileRef, content);
              r == p.outcome && client.calls == old(client.calls) + p.calls
    {
      ghost var start := client.calls;
      ghost var cp := ConnectPhase(client.script, address, details.userName, details.password);
      r := ConnectAndLogin(details.userName, details.password);
      if r.Fail? {
        return;
      }
      ghost var op := Steps(client.script, UploadSteps(uuid, fileRef, content));
      r := UploadSteps3(uuid, fileRef, content);
      ConcatAssoc(start, cp.calls, op.calls);
      DisconnectQuietly();
      ConcatAssoc(start, cp.calls + op.calls, DisconnectCalls(client.script));
    }

    /** The three steps of upload, each aborting the rest when it fails. */
    method UploadSteps3(uuid: string, fileRef: string, content: Bytes) returns (r: Outcome)
      modifies client
      ensures var p := Steps(client.script, UploadSteps(uuid, fileRef, content));
              r == p.outcome && client.calls == old(client.calls) + p.calls
    {
      UploadStepsCases(client.script, uuid, fileRef, content);
      ghost var start := client.calls;
      var reply := client.Call(MakeDirectory(uuid));
      if !Succeeds(reply) {
        return Fail(Transfer(Refusal(reply)));
      }
      reply := client.Call(ChangeWorkingDirectory(uuid));
      assert client.calls == start + [MakeDirectory(uuid), ChangeWorkingDirectory(uuid)];
      if !Succeeds(reply) {
        return Fail(Transfer(Refusal(reply)));
      }
      reply := client.Call(StoreFile(fileRef, content));
      assert client.calls == start + UploadSteps(uuid, fileRef, content);
      if !Succeeds(reply) {
        return Fail(Transfer(Refusal(reply)));
      }
      r := Pass;
    }
  }

  /** Why a step that does not succeed fails: the exception's message, or a refusal. */
  function Refusal(r: FtpReply): string {
    if r.Raised? then r.reason else "request refused"
  }

  /** The result of the three upload steps, case by case. */
  lemma UploadStepsCases(script: Script, uuid: string, fileRef: string, content: Bytes)
    ensures var md, cd := MakeDirectory(uuid), ChangeWorkingDirectory(uuid);
            !Succeeds(script(md)) ==>
              Steps(script, UploadSteps(uuid, fileRef, content)) == Phase([md], Fail(Transfer(Refusal(script(md)))))
    ensures var md, cd := MakeDirectory(uuid), ChangeWorkingDirectory(uuid);
            Succeeds(script(md)) && !Succeeds(script(cd)) ==>
              Steps(script, UploadSteps(uuid, fileRef, content)) == Phase([md, cd], Fail(Transfer(Refusal(script(cd)))))
    ensures var md, cd, sf := MakeDirectory(uuid), ChangeWorkingDirectory(uuid), StoreFile(fileRef, content);
            Succeeds(script(md)) && Succeeds(script(cd)) ==>
              Steps(script, UploadSteps(uuid, fileRef, content)) ==
                Phase(UploadSteps(uuid, fileRef, content), if Succeeds(script(sf)) then Pass else Fail(Transfer(Refusal(script(sf)))))
  {
    var steps := UploadSteps(uuid, fileRef, content);
    StepsUnfold(script, steps);
    StepsUnfold(script, steps[1..]);
    StepsUnfold(script, steps[2..]);
    assert steps[1..][1..] == steps[2..] && steps[2..][1..] == [];
  }

  /** One step of Steps, unfolded. */
  lemma StepsUnfold(script: Script, steps: seq<FtpCall>)
    requires steps != []
    ensures script(steps[0]).Raised? ==> Steps(script, steps) == Phase([steps[0]], Fail(Transfer(script(steps[0]).reason)))
    ensures script(steps[0]).Replied? && !script(steps[0]).ok ==>
              Steps(script, steps) == Phase([steps[0]], Fail(Transfer("request refused")))
    ensures Succeeds(script(steps[0])) ==>
              Steps(script, steps) == Phase([steps[0]] + Steps(script, steps[1..]).calls, Steps(script, steps[1..]).outcome)
  {
  }

  // ---------------------------------------------------------------------------
  // Properties of a session

  /** When connecting or logging in fails, the session stops there: no
      operation is attempted and disconnect is never called. */
  lemma ConnectFailureSkipsDisconnect(script: Script, address: Option<string>, details: TransportDetails,
                                      uuid: string, fileRef: string, content: Bytes)
    requires ConnectPhase(script, address, details.userName, details.password).outcome.Fail?
    ensures var s := DownloadSession(script, address, details, fileRef);
            Disconnect !in s.calls && RetrieveFile(fileRef) !in s.calls && s.received == []
    ensures var p := UploadSession(script, address, details, uuid, fileRef, content);
            Disconnect !in p.calls && MakeDirectory(uuid) !in p.calls
  {
    ConnectCallsKinds(script, address, details.userName, details.password);
  }

  /** Once logged in, the session always ends with the disconnect phase,
      whatever the operation did. */
  lemma {:induction false} ConnectedSessionsDisconnect(script: Script, address: Option<string>, details: TransportDetails,
                                                       uuid: string, fileRef: string, content: Bytes)
    requires ConnectPhase(script, address, details.userName, details.password).outcome == Pass
    ensures var s := DownloadSession(script, address, details, fileRef);
            var d := DisconnectCalls(script);
            |s.calls| >= |d| && s.calls[|s.calls| - |d|..] == d
    ensures var p := UploadSession(script, address, details, uuid, fileRef, content);
            var d := DisconnectCalls(script);
            |p.calls| >= |d| && p.calls[|p.calls| - |d|..] == d
  {
    var cp := ConnectPhase(script, address, details.userName, details.password);
    var d := DisconnectCalls(script);
    var s := DownloadSession(script, address, details, fileRef);
    assert s.calls == (cp.calls + [RetrieveFile(fileRef)]) + d;
    var op := Steps(script, UploadSteps(uuid, fileRef, content));
    var p := UploadSession(script, address, details, uuid, fileRef, content);
    assert p.calls == (cp.calls + op.calls) + d;
  }

  /** Disconnecting never changes what a session reports: two clients that
      answer alike except to isConnected, logout and disconnect give the same outcome. */
  lemma DisconnectNeverMatters(s1: Script, s2: Script, address: Option<string>, details: TransportDetails,
                               uuid: string, fileRef: string, content: Bytes)
    requires forall c: FtpCall :: !c.IsConnected? && !c.Logout? && !c.Disconnect? ==> s1(c) == s2(c)
    ensures DownloadSession(s1, address, details, fileRef).outcome == DownloadSession(s2, address, details, fileRef).outcome
    ensures DownloadSession(s1, address, details, fileRef).received == DownloadSession(s2, address, details, fileRef).received
    ensures UploadSession(s1, address, details, uuid, fileRef, content).outcome ==
            UploadSession(s2, address, details, uuid, fileRef, content).outcome
  {
    DownloadAgrees(s1, s2, address, details, fileRef);
    UploadAgrees(s1, s2, address, details, uuid, fileRef, content);
  }

  lemma DownloadAgrees(s1: Script, s2: Script, address: Option<string>, details: TransportDetails, fileRef: string)
    requires forall c: FtpCall :: !c.IsConnected? && !c.Logout? && !c.Disconnect? ==> s1(c) == s2(c)
    ensures DownloadSession(s1, address, details, fileRef).outcome == DownloadSession(s2, address, details, fileRef).outcome
    ensures DownloadSession(s1, address, details, fileRef).received == DownloadSession(s2, address, details, fileRef).received
  {
    ConnectAgrees(s1, s2, address, details.userName, details.password);
    assert s1(RetrieveFile(fileRef)) == s2(RetrieveFile(fileRef));
  }

  lemma UploadAgrees(s1: Script, s2: Script, address: Option<string>, details: TransportDetails,
                     uuid: string, fileRef: string, content: Bytes)
    requires forall c: FtpCall :: !c.IsConnected? && !c.Logout? && !c.Disconnect? ==> s1(c) == s2(c)
    ensures UploadSession(s1, address, details, uuid, fileRef, content).outcome ==
            UploadSession(s2, address, details, uuid, fileRef, content).outcome
  {
    ConnectAgrees(s1, s2, address, details.userName, details.password);
    var steps := UploadSteps(uuid, fileRef, content);
    assert s1(steps[0]) == s2(steps[0]) && s1(steps[1]) == s2(steps[1]) && s1(steps[2]) == s2(steps[2]);
    StepsAgree(s1, s2, steps);
  }

  lemma ConnectAgrees(s1: Script, s2: Script, address: Option<string>, u: Option<string>, p: Option<string>)
    requires forall c: FtpCall :: !c.IsConnected? && !c.Logout? && !c.Disconnect? ==> s1(c) == s2(c)
    ensures ConnectPhase(s1, address, u, p) == ConnectPhase(s2, address, u, p)
  {
    match Target(address)
    case Err(_) =>
    case Ok(t) =>
      assert s1(Connect(t.0, t.1)) == s2(Connect(t.0, t.1));
      assert s1(IsAvailable) == s2(IsAvailable);
      assert s1(Login(u, p)) == s2(Login(u, p));
      assert s1(SetBinaryFileType) == s2(SetBinaryFileType);
  }

  lemma {:induction false} StepsAgree(s1: Script, s2: Script, steps: seq<FtpCall>)
    requires forall i :: 0 <= i < |steps| ==> s1(steps[i]) == s2(steps[i])
    ensures Steps(s1, steps) == Steps(s2, steps)
    decreases |steps|
  {
    if steps != [] {
      StepsAgree(s1, s2, steps[1..]);
    }
  }

  /** Once logged in, a download fails exactly when retrieveFile raises or reports false. */
  lemma DownloadFailsIff(script: Script, address: Option<string>, details: TransportDetails, fileRef: string)
    requires ConnectPhase(script, address, details.userName, details.password).outcome == Pass
    ensures DownloadSession(script, address, details, fileRef).outcome.Fail? <==> !Succeeds(script(RetrieveFile(fileRef)))
  {
  }

  /** The calls the three upload steps make, case by case. */
  lemma {:induction false} UploadStepsCalls(script: Script, uuid: string, fileRef: string, content: Bytes)
    ensures var op := Steps(script, UploadSteps(uuid, fileRef, content));
            !Succeeds(script(MakeDirectory(uuid))) ==> op.calls == [MakeDirectory(uuid)] && op.outcome.Fail?
    ensures var op := Steps(script, UploadSteps(uuid, fileRef, content));
            Succeeds(script(MakeDirectory(uuid))) && !Succeeds(script(ChangeWorkingDirectory(uuid))) ==>
              op.calls == [MakeDirectory(uuid), ChangeWorkingDirectory(uuid)] && op.outcome.Fail?
    ensures var op := Steps(script, UploadSteps(uuid, fileRef, content));
            Succeeds(script(MakeDirectory(uuid))) && Succeeds(script(ChangeWorkingDirectory(uuid))) ==>
              op.calls == UploadSteps(uuid, fileRef, content) &&
              (op.outcome == Pass <==> Succeeds(script(StoreFile(fileRef, content))))
  {
    var steps := UploadSteps(uuid, fileRef, content);
    StepsUnfold(script, steps);
    StepsUnfold(script, steps[1..]);
    StepsUnfold(script, steps[2..]);
    assert steps[1..][1..] == steps[2..] && steps[2..][1..] == [];
  }

  /** A call that is none of connect's, none of the steps' and none of
      disconnect's is not in the session. */
  lemma NotInUpload(x: FtpCall, cp: seq<FtpCall>, op: seq<FtpCall>, d: seq<FtpCall>)
    requires x !in cp && x !in op && x !in d
    ensures x !in cp + op + d
  {
  }

  /** An upload runs its three steps in order and stops at the first that fails:
      a refused directory creation means no directory change and no store. */
  lemma {:induction false} UploadStopsAtFirstFailure(script: Script, address: Option<string>, details: TransportDetails,
                                                     uuid: string, fileRef: string, content: Bytes)
    requires ConnectPhase(script, address, details.userName, details.password).outcome == Pass
    ensures var p := UploadSession(script, address, details, uuid, fileRef, content);
            p.outcome == Pass <==>
              Succeeds(script(MakeDirectory(uuid))) && Succeeds(script(ChangeWorkingDirectory(uuid))) &&
              Succeeds(script(StoreFile(fileRef, content)))
    ensures !Succeeds(script(MakeDirectory(uuid))) ==>
              var p := UploadSession(script, address, details, uuid, fileRef, content);
              ChangeWorkingDirectory(uuid) !in p.calls && StoreFile(fileRef, content) !in p.calls
    ensures !Succeeds(script(ChangeWorkingDirectory(uuid))) ==>
              var p := UploadSession(script, address, details, uuid, fileRef, content);
              StoreFile(fileRef, content) !in p.calls
  {
    var cp := ConnectPhase(script, address, details.userName, details.password);
    ConnectCallsKinds(script, address, details.userName, details.password);
    DisconnectCallsKinds(script);
    UploadStepsStop(script, cp.calls, DisconnectCalls(script), uuid, fileRef, content);
  }

  /** The calls connect may make. */
  predicate ConnectKind(c: FtpCall) {
    c.SetControlEncoding? || c.Connect? || c.IsAvailable? || c.EnterLocalPassiveMode? || c.Login? ||
    c.SetBinaryFileType?
  }

  /** Connecting makes only its own six kinds of call. */
  lemma ConnectCallsKinds(script: Script, address: Option<string>, user: Option<string>, password: Option<string>)
    ensures forall c: FtpCall :: c in ConnectPhase(script, address, user, password).calls ==> ConnectKind(c)
  {
    var calls := ConnectPhase(script, address, user, password).calls;
    match Target(address)
    case Err(_) =>
      assert calls == [SetControlEncoding(UTF8)];
    case Ok(t) =>
      var all := [SetControlEncoding(UTF8), Connect(t.0, t.1), IsAvailable, EnterLocalPassiveMode,
                  Login(user, password), SetBinaryFileType];
      assert calls <= all;
      forall c: FtpCall | c in calls ensures ConnectKind(c) {
        var i :| 0 <= i < |calls| && calls[i] == c;
        assert all[i] == c;
      }
  }

  /** Disconnecting makes only its own three kinds of call. */
  lemma DisconnectCallsKinds(script: Script)
    ensures forall c: FtpCall :: c in DisconnectCalls(script) ==> c.IsConnected? || c.Logout? || c.Disconnect?
  {
    match script(IsConnected)
    case Raised(_) =>
    case Replied(connected, _) =>
      if connected {
        match script(Logout)
        case Raised(_) =>
        case Replied(_, _) =>
      }
  }

  /** The steps between a connect and a disconnect that make neither a
      directory change nor a store stop at the first failing step. */
  lemma UploadStepsStop(script: Script, cp: seq<FtpCall>, d: seq<FtpCall>, uuid: string, fileRef: string, content: Bytes)
    requires forall c: FtpCall :: c in cp ==> ConnectKind(c)
    requires forall c: FtpCall :: c in d ==> c.IsConnected? || c.Logout? || c.Disconnect?
    ensures var op := Steps(script, UploadSteps(uuid, fileRef, content));
            op.outcome == Pass <==>
              Succeeds(script(MakeDirectory(uuid))) && Succeeds(script(ChangeWorkingDirectory(uuid))) &&
              Succeeds(script(StoreFile(fileRef, content)))
    ensures !Succeeds(script(MakeDirectory(uuid))) ==>
              var op := Steps(script, UploadSteps(uuid, fileRef, content));
              ChangeWorkingDirectory(uuid) !in cp + op.calls + d && StoreFile(fileRef, content) !in cp + op.calls + d
    ensures !Succeeds(script(ChangeWorkingDirectory(uuid))) ==>
              var op := Steps(script, UploadSteps(uuid, fileRef, content));
              StoreFile(fileRef, content) !in cp + op.calls + d
  {
    var op := Steps(script, UploadSteps(uuid, fileRef, content));
    UploadStepsCalls(script, uuid, fileRef, content);
    if !Succeeds(script(MakeDirectory(uuid))) {
      NotInUpload(ChangeWorkingDirectory(uuid), cp, op.calls, d);
      NotInUpload(StoreFile(fileRef, content), cp, op.calls, d);
    } else if !Succeeds(script(ChangeWorkingDirectory(uuid))) {
      NotInUpload(StoreFile(fileRef, content), cp, op.calls, d);
    }
  }

  /** Membership survives appending on the right. */
  lemma InConcat(x: FtpCall, a: seq<FtpCall>, b: seq<FtpCall>)
    requires x in a
    ensures x in a + b
  {
    var i :| 0 <= i < |a| && a[i] == x;
    assert (a + b)[i] == x;
  }

  /** Both operations log in with the credentials carried by the attachment. */
  lemma CredentialsFromAttachment(script: Script, address: Option<string>, details: TransportDetails,
                                  uuid: string, fileRef: string, content: Bytes)
    requires ConnectPhase(script, address, details.userName, details.password).outcome == Pass
    ensures Login(details.userName, details.password) in DownloadSession(script, address, details, fileRef).calls
    ensures Login(details.userName, details.password) in UploadSession(script, address, details, uuid, fileRef, content).calls
  {
    var cp := ConnectPhase(script, address, details.userName, details.password);
    var d := DisconnectCalls(script);
    var s := DownloadSession(script, address, details, fileRef);
    var l := Login(details.userName, details.password);
    assert s.calls == cp.calls + ([RetrieveFile(fileRef)] + d) by {
      match script(RetrieveFile(fileRef))
      case Raised(_) =>
      case Replied(_, _) =>
    }
    InConcat(l, cp.calls, [RetrieveFile(fileRef)] + d);
    var op := Steps(script, UploadSteps(uuid, fileRef, content));
    var p := UploadSession(script, address, details, uuid, fileRef, content);
    assert p.calls == (cp.calls + op.calls) + d;
    InConcat(l, cp.calls, op.calls);
    InConcat(l, cp.calls + op.calls, d);
  }

  // ---------------------------------------------------------------------------
  // Files stored by a session

  /** The remote names of the files a call sequence stores, in order. */
  function StoredFiles(calls: seq<FtpCall>): (names: seq<string>)
    ensures |names| <= |calls|
    ensures names == [] <==> forall i :: 0 <= i < |calls| ==> !calls[i].StoreFile?
    ensures forall k :: 0 <= k < |names| ==> exists j :: 0 <= j < |calls| && calls[j].StoreFile? && calls[j].remote == names[k]
  {
    if calls == [] then []
    else
      var rest := StoredFiles(calls[1..]);
      assert forall j :: 1 <= j < |calls| ==> calls[j] == calls[1..][j - 1];
      (if calls[0].StoreFile? then [calls[0].remote] else []) + rest
  }

  lemma {:induction false} StoredFilesConcat(a: seq<FtpCall>, b: seq<FtpCall>)
    ensures StoredFiles(a + b) == StoredFiles(a) + StoredFiles(b)
  {
    if a == [] {
      assert a + b == b;
    } else {
      assert (a + b)[1..] == a[1..] + b;
      StoredFilesConcat(a[1..], b);
      ConcatAssoc(if a[0].StoreFile? then [a[0].remote] else [], StoredFiles(a[1..]), StoredFiles(b));
    }
  }

  lemma {:induction false} StoredFilesNone(calls: seq<FtpCall>)
    requires forall i :: 0 <= i < |calls| ==> !calls[i].StoreFile?
    ensures StoredFiles(calls) == []
  {
    if calls != [] {
      StoredFilesNone(calls[1..]);
    }
  }

  /** A successful upload stores exactly one file, under the attachment's file
      reference; connecting and disconnecting store nothing. */
  lemma {:induction false} UploadStoresOnce(script: Script, address: Option<string>, details: TransportDetails,
                                            uuid: string, fileRef: string, content: Bytes)
    requires UploadSession(script, address, details, uuid, fileRef, content).outcome == Pass
    ensures StoredFiles(UploadSession(script, address, details, uuid, fileRef, content).calls) == [fileRef]
  {
    var cp := ConnectPhase(script, address, details.userName, details.password);
    var steps := UploadSteps(uuid, fileRef, content);
    var op := Steps(script, steps);
    var d := DisconnectCalls(script);
    assert cp.outcome == Pass;
    assert UploadSession(script, address, details, uuid, fileRef, content) == Phase(cp.calls + op.calls + d, op.outcome);
    assert op.calls == steps;
    StoredFilesNone(cp.calls);
    StoredFilesNone(d);
    StoredFilesConcat(cp.calls, op.calls);
    StoredFilesConcat(cp.calls + op.calls, d);
    UploadStepsStore(uuid, fileRef, content);
  }

  lemma UploadStepsStore(uuid: string, fileRef: string, content: Bytes)
    ensures StoredFiles(UploadSteps(uuid, fileRef, content)) == [fileRef]
  {
    var steps := UploadSteps(uuid, fileRef, content);
    var s2 := [StoreFile(fileRef, content)];
    var s1 := [ChangeWorkingDirectory(uuid)] + s2;
    assert s2[1..] == [] && s1[1..] == s2 && steps[1..] == s1;
    assert StoredFiles(s2) == [fileRef] + StoredFiles([]);
    assert StoredFiles(s1) == StoredFiles(s2);
  }
}

/**
 * The SMTP conversation of `Send` (mailer.go:278-335): connect, optionally
 * authenticate, hand over the message, quit, and stop at the first step that
 * fails with an error naming that step, except a failed close of the data
 * writer, which is reported as a Quit() failure.
 *
 * The network and the SMTP client are a `Server` object: it records every
 * command it is given, and whether a command fails, and with which cause, is
 * fixed in advance by its `reply` function. Each command occurs at most once
 * in one conversation, so a reply per command covers every possible run.
 */
module Session {
  import opened Mailer
  import Assembly
  import Boundary

  /** An authentication mechanism handed to `(*Client) Auth`. */
  datatype Mechanism =
    | CramMd5(userName: string, secret: string)
    | Plain(identity: string, userName: string, password: string, host: string)

  /** One call `Send` makes on the network or on the SMTP client. */
  datatype Command =
    | TlsDial(host: string, port: int, config: TlsConfig)
    | NewClient(host: string)
    | Dial(host: string, port: int)
    | Auth(mechanism: Mechanism)
    | Mail(from: string)
    | Rcpt(to: string)
    | Data
    | Write(message: string)
    | CloseWriter
    | Quit

  /** What the server sees: a command, or the client closing the connection. */
  datatype Event = Issued(command: Command) | Closed

  /** The commands that open the connection. */
  predicate IsConnectStep(c: Command) {
    c.TlsDial? || c.NewClient? || c.Dial?
  }

  /** The commands that hand the message over, after authentication. */
  predicate IsMailStep(c: Command) {
    c.Mail? || c.Rcpt? || c.Data? || c.Write? || c.CloseWriter? || c.Quit?
  }

  /** The function an error message names. */
  datatype Origin =
    | FromTlsDial | FromNewClient | FromDial | FromAuth | FromMail | FromRcpt
    | FromData | FromWrite | FromQuit

  /**
   * The function named when `c` fails. Closing the data writer is reported
   * as a failure of Quit, like Quit itself.
   */
  function OriginOf(c: Command): Origin {
    match c
    case TlsDial(_, _, _) => FromTlsDial
    case NewClient(_) => FromNewClient
    case Dial(_, _) => FromDial
    case Auth(_) => FromAuth
    case Mail(_) => FromMail
    case Rcpt(_) => FromRcpt
    case Data => FromData
    case Write(_) => FromWrite
    case CloseWriter => FromQuit
    case Quit => FromQuit
  }

  /** An error `Send` returns: the function that failed and the cause it gave. */
  datatype SendError = SendError(origin: Origin, cause: string)

  /** The error `Send` returns when `c` fails with `cause`. */
  function ErrorOf(c: Command, cause: string): SendError {
    SendError(OriginOf(c), cause)
  }

  /** The text that precedes the cause in the message of an error. */
  function Prefix(o: Origin): string {
    match o
    case FromTlsDial => "tls.Dial() error. err="
    case FromNewClient => "smtp.NewClient() error. err="
    case FromDial => "smtp.Dial() error. err="
    case FromAuth => "(*Client) Auth() error. err="
    case FromMail => "(*Client) Mail() error. err="
    case FromRcpt => "(*Client) Rcpt() error. err="
    case FromData => "(*Client) Data() error. err="
    case FromWrite => "(io.WriteCloser) Write() error. err="
    case FromQuit => "(*Client) Quit() error. err="
  }

  /** The message of an error, as `Error()` returns it. */
  function Text(e: SendError): (text: string)
    ensures Prefix(e.origin) <= text && text[|Prefix(e.origin)|..] == e.cause
  {
    Prefix(e.origin) + e.cause
  }

  /** Four characters of `Prefix(o)` that tell every origin apart. */
  function Signature(o: Origin): string {
    match o
    case FromTlsDial => "tli "
    case FromNewClient => "smNi"
    case FromDial => "smD)"
    case FromAuth => "(*eA"
    case FromMail => "(*eM"
    case FromRcpt => "(*eR"
    case FromData => "(*eD"
    case FromWrite => "(irl"
    case FromQuit => "(*eQ"
  }

  /** Each prefix is longer than ten characters and carries its origin's signature. */
  lemma PrefixSignature(o: Origin)
    ensures |Prefix(o)| > 10
    ensures Signature(o) == [Prefix(o)[0], Prefix(o)[1], Prefix(o)[5], Prefix(o)[10]]
  {
  }

  /**
   * An error message names the function that failed and carries the cause:
   * both can be read back from the text, so distinct errors have distinct
   * messages.
   */
  lemma TextInjective(e1: SendError, e2: SendError)
    requires Text(e1) == Text(e2)
    ensures e1 == e2
  {
    var t := Text(e1);
    PrefixSignature(e1.origin);
    PrefixSignature(e2.origin);
    assert Signature(e1.origin) == [t[0], t[1], t[5], t[10]] == Signature(e2.origin);
    assert e1.origin == e2.origin;
    assert e1.cause == t[|Prefix(e1.origin)|..] == e2.cause;
  }

  /** The network and the SMTP client, seen from the mailer. */
  class Server {
    /** Everything the mailer has done to the server so far. */
    var log: seq<Event>
    /** The cause with which a command fails, or None when it succeeds. */
    const reply: Command -> Option<string>

    constructor (reply: Command -> Option<string>)
      ensures log == [] && this.reply == reply
    {
      this.reply := reply;
      log := [];
    }

    /** Issues one command and reports whether it failed. */
    method Perform(c: Command) returns (failure: Option<string>)
      modifies this
      ensures log == old(log) + [Issued(c)]
      ensures failure == reply(c)
    {
      log := log + [Issued(c)];
      failure := reply(c);
    }

    /** Closes the connection (the deferred `c.Close()`); its error is dropped. */
    method Close()
      modifies this
      ensures log == old(log) + [Closed]
    {
      log := log + [Closed];
    }
  }

  /** The commands that open the connection: TLS dial and client, or a plain dial. */
  function ConnectCommands(p: Params): seq<Command> {
    match p.tls
    case Some(config) => [TlsDial(p.host, p.port, config), NewClient(p.host)]
    case None => [Dial(p.host, p.port)]
  }

  /** The CRAM-MD5 authentication, when configured. */
  function CramMd5Commands(a: AuthConfig): seq<Command> {
    match a.cramMd5
    case Some(c) => [Auth(CramMd5(c.userName, c.secret))]
    case None => []
  }

  /** The PLAIN authentication with an empty identity, when configured. */
  function PlainCommands(a: AuthConfig): seq<Command> {
    match a.plain
    case Some(c) => [Auth(Plain("", c.userName, c.password, c.host))]
    case None => []
  }

  /** The authentication commands: CRAM-MD5 first, then PLAIN. */
  function AuthCommands(auth: Option<AuthConfig>): seq<Command> {
    match auth
    case Some(a) => CramMd5Commands(a) + PlainCommands(a)
    case None => []
  }

  /** The commands that name the sender and the recipient. */
  function EnvelopeCommands(h: Header): seq<Command> {
    [Mail(h.from), Rcpt(h.to)]
  }

  /** The commands that hand `wire` over and end the session. */
  function DeliveryCommands(wire: string): seq<Command> {
    [Data, Write(wire), CloseWriter, Quit]
  }

  /** Everything after a successful connect. */
  function ConversationCommands(p: Params, wire: string): seq<Command> {
    AuthCommands(p.auth) + EnvelopeCommands(p.header) + DeliveryCommands(wire)
  }

  /** Every command of one `Send`, in order, if none fails. */
  function Plan(p: Params, wire: string): seq<Command> {
    ConnectCommands(p) + ConversationCommands(p, wire)
  }

  /** The commands a sequence of steps issued, and the error it stopped with. */
  datatype Run = Run(issued: seq<Command>, error: Option<SendError>)

  /**
   * Issues `cmds` in order and stops at the first one that fails, returning
   * the error for it.
   */
  function RunUntilFailure(cmds: seq<Command>, reply: Command -> Option<string>): Run
    decreases |cmds|
  {
    if cmds == [] then Run([], None)
    else match reply(cmds[0])
      case Some(cause) => Run([cmds[0]], Some(ErrorOf(cmds[0], cause)))
      case None =>
        var rest := RunUntilFailure(cmds[1..], reply);
        Run([cmds[0]] + rest.issued, rest.error)
  }

  /**
   * A run issues a prefix of its commands. Every issued command but the last
   * succeeded. With no error, it issued all of them and all succeeded. With
   * an error, the last issued command failed, and the error is its own.
   */
  lemma {:induction false} RunCharacterized(cmds: seq<Command>, reply: Command -> Option<string>)
    ensures var r := RunUntilFailure(cmds, reply);
      && r.issued <= cmds
      && (forall i :: 0 <= i < |r.issued| - 1 ==> reply(r.issued[i]).None?)
      && (r.error.None? ==> r.issued == cmds && forall i :: 0 <= i < |cmds| ==> reply(cmds[i]).None?)
      && (r.error.Some? ==>
           && |r.issued| > 0
           && reply(r.issued[|r.issued| - 1]).Some?
           && r.error == Some(ErrorOf(r.issued[|r.issued| - 1], reply(r.issued[|r.issued| - 1]).value)))
    decreases |cmds|
  {
    if cmds != [] && reply(cmds[0]).None? {
      var rest := cmds[1..];
      RunCharacterized(rest, reply);
      var r := RunUntilFailure(cmds, reply);
      assert r.issued == [cmds[0]] + RunUntilFailure(rest, reply).issued;
      assert cmds == [cmds[0]] + rest;
      forall i | 0 <= i < |cmds| && RunUntilFailure(rest, reply).error.None?
        ensures reply(cmds[i]).None?
      {
        if i > 0 {
          assert cmds[i] == rest[i - 1];
        }
      }
    }
  }

  /** A run stops right after the first command that fails, with that command's error. */
  lemma RunStopsAt(cmds: seq<Command>, reply: Command -> Option<string>, k: nat)
    requires k < |cmds| && reply(cmds[k]).Some?
    requires forall i :: 0 <= i < k ==> reply(cmds[i]).None?
    ensures RunUntilFailure(cmds, reply) == Run(cmds[..k + 1], Some(ErrorOf(cmds[k], reply(cmds[k]).value)))
  {
    RunCharacterized(cmds, reply);
    var r := RunUntilFailure(cmds, reply);
    assert r.error.Some?;
    var n := |r.issued| - 1;
    assert r.issued[n] == cmds[n];
    assert n == k;
    assert r.issued == cmds[..k + 1];
  }

  /** A run in which no command fails issues all of them and returns no error. */
  lemma RunCompletes(cmds: seq<Command>, reply: Command -> Option<string>)
    requires forall i :: 0 <= i < |cmds| ==> reply(cmds[i]).None?
    ensures RunUntilFailure(cmds, reply) == Run(cmds, None)
  {
    RunCharacterized(cmds, reply);
  }

  /** Running `a` then `b` is running `a + b`: `b` starts only when `a` succeeds. */
  lemma {:induction false} RunConcat(a: seq<Command>, b: seq<Command>, reply: Command -> Option<string>)
    ensures RunUntilFailure(a + b, reply) ==
      var ra := RunUntilFailure(a, reply);
      var rb := RunUntilFailure(b, reply);
      if ra.error.Some? then ra else Run(a + rb.issued, rb.error)
    decreases |a|
  {
    if a == [] {
      assert a + b == b;
    } else {
      var ab := a + b;
      assert ab[0] == a[0] && ab[1..] == a[1..] + b;
      RunConcat(a[1..], b, reply);
      if reply(a[0]).None? {
        SplitFirst(a, RunUntilFailure(b, reply).issued);
      }
    }
  }

  /** Splitting off the first element commutes with appending. */
  lemma SplitFirst(a: seq<Command>, t: seq<Command>)
    requires a != []
    ensures [a[0]] + (a[1..] + t) == a + t
  {
  }

  /** The events a sequence of commands leaves in the log. */
  function Events(cmds: seq<Command>): seq<Event> {
    seq(|cmds|, i requires 0 <= i < |cmds| => Issued(cmds[i]))
  }

  /** The events of two batches are the events of the first, then of the second. */
  lemma EventsAppend(a: seq<Command>, b: seq<Command>)
    ensures Events(a + b) == Events(a) + Events(b)
  {
  }

  /** The log and the returned error of one `Send`. */
  datatype Outcome = Outcome(log: seq<Event>, error: Option<SendError>)

  /** The connect steps succeed, so the deferred close is armed. */
  predicate Connected(p: Params, reply: Command -> Option<string>) {
    RunUntilFailure(ConnectCommands(p), reply).error.None?
  }

  /**
   * What `Send` does to the server, step by step: the connect steps; if they
   * succeed, the conversation and then the deferred close.
   */
  function Expected(p: Params, wire: string, reply: Command -> Option<string>): Outcome {
    var connect := RunUntilFailure(ConnectCommands(p), reply);
    if connect.error.Some? then Outcome(Events(connect.issued), connect.error)
    else
      var talk := RunUntilFailure(ConversationCommands(p, wire), reply);
      Outcome(Events(connect.issued) + Events(talk.issued) + [Closed], talk.error)
  }

  /** Opens the connection (mailer.go:278-296). */
  method Connect(p: Params, server: Server) returns (err: Option<SendError>)
    modifies server
    ensures var r := RunUntilFailure(ConnectCommands(p), server.reply);
      server.log == old(server.log) + Events(r.issued) && err == r.error
  {
    ghost var plan := ConnectCommands(p);
    assert server.log == old(server.log) + Events(plan[..0]);
    if p.tls.Some? {
      var dial := TlsDial(p.host, p.port, p.tls.value);
      var failure := server.Perform(dial);
      LogStep(old(server.log), plan, 0);
      if failure.Some? {
        RunStopsAt(plan, server.reply, 0);
        return Some(ErrorOf(dial, failure.value));
      }
      var client := NewClient(p.host);
      failure := server.Perform(client);
      LogStep(old(server.log), plan, 1);
      if failure.Some? {
        RunStopsAt(plan, server.reply, 1);
        return Some(ErrorOf(client, failure.value));
      }
      assert plan[..2] == plan;
    } else {
      var dial := Dial(p.host, p.port);
      var failure := server.Perform(dial);
      LogStep(old(server.log), plan, 0);
      if failure.Some? {
        RunStopsAt(plan, server.reply, 0);
        return Some(ErrorOf(dial, failure.value));
      }
      assert plan[..1] == plan;
    }
    RunCompletes(plan, server.reply);
    return None;
  }

  /** Issuing the `k`-th command of `cmds` adds its event to the log. */
  lemma LogStep(before: seq<Event>, cmds: seq<Command>, k: nat)
    requires k < |cmds|
    ensures before + Events(cmds[..k]) + [Issued(cmds[k])] == before + Events(cmds[..k + 1])
  {
  }

  /** Two batches of commands issued one after the other log their events in order. */
  lemma LogAppend(before: seq<Event>, a: seq<Command>, b: seq<Command>)
    ensures before + Events(a) + Events(b) == before + Events(a + b)
  {
  }

  /** Authenticates with each configured mechanism, CRAM-MD5 first (mailer.go:298-312). */
  method Authenticate(auth: Option<AuthConfig>, server: Server) returns (err: Option<SendError>)
    modifies server
    ensures var r := RunUntilFailure(AuthCommands(auth), server.reply);
      server.log == old(server.log) + Events(r.issued) && err == r.error
  {
    ghost var plan := AuthCommands(auth);
    if auth.Some? {
      var a := auth.value;
      if a.cramMd5.Some? {
        var mechanism := Auth(CramMd5(a.cramMd5.value.userName, a.cramMd5.value.secret));
        var failure := server.Perform(mechanism);
        LogStep(old(server.log), plan, 0);
        if failure.Some? {
          RunStopsAt(plan, server.reply, 0);
          return Some(ErrorOf(mechanism, failure.value));
        }
      }
      ghost var k := |CramMd5Commands(a)|;
      assert server.log == old(server.log) + Events(plan[..k]);
      if a.plain.Some? {
        var mechanism := Auth(Plain("", a.plain.value.userName, a.plain.value.password, a.plain.value.host));
        var failure := server.Perform(mechanism);
        LogStep(old(server.log), plan, k);
        if failure.Some? {
          RunStopsAt(plan, server.reply, k);
          return Some(ErrorOf(mechanism, failure.value));
        }
      }
      assert plan[..|plan|] == plan;
    }
    RunCompletes(plan, server.reply);
    return None;
  }

  /** Names the sender and the recipient (mailer.go:314-320). */
  method Address(h: Header, server: Server) returns (err: Option<SendError>)
    modifies server
    ensures var r := RunUntilFailure(EnvelopeCommands(h), server.reply);
      server.log == old(server.log) + Events(r.issued) && err == r.error
  {
    ghost var plan := EnvelopeCommands(h);
    assert server.log == old(server.log) + Events(plan[..0]);
    var failure := server.Perform(Mail(h.from));
    LogStep(old(server.log), plan, 0);
    if failure.Some? {
      RunStopsAt(plan, server.reply, 0);
      return Some(ErrorOf(Mail(h.from), failure.value));
    }
    failure := server.Perform(Rcpt(h.to));
    LogStep(old(server.log), plan, 1);
    if failure.Some? {
      RunStopsAt(plan, server.reply, 1);
      return Some(ErrorOf(Rcpt(h.to), failure.value));
    }
    assert plan[..2] == plan;
    RunCompletes(plan, server.reply);
    return None;
  }

  /**
   * Opens the data writer, writes the message, closes the writer and quits
   * (mailer.go:321-334).
   */
  method Deliver(wire: string, server: Server) returns (err: Option<SendError>)
    modifies server
    ensures var r := RunUntilFailure(DeliveryCommands(wire), server.reply);
      server.log == old(server.log) + Events(r.issued) && err == r.error
  {
    ghost var plan := DeliveryCommands(wire);
    assert server.log == old(server.log) + Events(plan[..0]);
    var failure := server.Perform(Data);
    LogStep(old(server.log), plan, 0);
    if failure.Some? {
      RunStopsAt(plan, server.reply, 0);
      return Some(ErrorOf(Data, failure.value));
    }
    failure := server.Perform(Write(wire));
    LogStep(old(server.log), plan, 1);
    assert server.log == old(server.log) + Events(plan[..2]);
    if failure.Some? {
      RunStopsAt(plan, server.reply, 1);
      return Some(ErrorOf(Write(wire), failure.value));
    }
    failure := server.Perform(CloseWriter);
    LogStep(old(server.log), plan, 2);
    assert server.log == old(server.log) + Events(plan[..3]);
    if failure.Some? {
      RunStopsAt(plan, server.reply, 2);
      return Some(ErrorOf(CloseWriter, failure.value));
    }
    failure := server.Perform(Quit);
    LogStep(old(server.log), plan, 3);
    if failure.Some? {
      RunStopsAt(plan, server.reply, 3);
      return Some(ErrorOf(Quit, failure.value));
    }
    assert plan[..4] == plan;
    RunCompletes(plan, server.reply);
    return None;
  }

  /** Everything after a successful connect (mailer.go:298-335). */
  method Converse(p: Params, wire: string, server: Server) returns (err: Option<SendError>)
    modifies server
    ensures var r := RunUntilFailure(ConversationCommands(p, wire), server.reply);
      server.log == old(server.log) + Events(r.issued) && err == r.error
  {
    ghost var auth := AuthCommands(p.auth);
    ghost var envelope := EnvelopeCommands(p.header);
    RunConcat(auth + envelope, DeliveryCommands(wire), server.reply);
    RunConcat(auth, envelope, server.reply);
    RunCharacterized(auth, server.reply);
    RunCharacterized(envelope, server.reply);
    err := Authenticate(p.auth, server);
    if err.Some? {
      return;
    }
    err := Address(p.header, server);
    ghost var addressed := RunUntilFailure(envelope, server.reply).issued;
    LogAppend(old(server.log), auth, addressed);
    if err.Some? {
      return;
    }
    err := Deliver(wire, server);
    LogAppend(old(server.log), auth + envelope, RunUntilFailure(DeliveryCommands(wire), server.reply).issued);
  }

  /**
   * The whole of `Send` (mailer.go:251-336): assemble the message, connect,
   * and if that succeeds converse and close the connection on the way out.
   */
  method Send(p: Params, draws: seq<Boundary.CharIndex>, server: Server) returns (err: Option<SendError>)
    requires |draws| == Boundary.BoundaryLength
    modifies server
    ensures exists wire ::
      && Assembly.IsAssembly(p.header, p.bodies, draws, wire)
      && server.log == old(server.log) + Expected(p, wire, server.reply).log
      && err == Expected(p, wire, server.reply).error
  {
    var wire := Assembly.AssembleMessage(p.header, p.bodies, draws);
    err := Connect(p, server);
    if err.Some? {
      assert server.log == old(server.log) + Expected(p, wire, server.reply).log;
      return;
    }
    err := Converse(p, wire, server);
    server.Close();
    assert server.log == old(server.log) + Expected(p, wire, server.reply).log by {
      ghost var talk := RunUntilFailure(ConversationCommands(p, wire), server.reply).issued;
      ghost var dial := RunUntilFailure(ConnectCommands(p), server.reply).issued;
      assert server.log == old(server.log) + Events(dial) + Events(talk) + [Closed];
      Assembly.Associative(old(server.log), Events(dial), Events(talk));
      Assembly.Associative(old(server.log), Events(dial) + Events(talk), [Closed]);
    }
  }

  // Properties of a whole `Send`, stated on `Expected`.

  /**
   * `Send` is one run over its whole plan that stops at the first failure;
   * the close follows exactly when the connect steps succeeded.
   */
  lemma SendFollowsPlan(p: Params, wire: string, reply: Command -> Option<string>)
    ensures var r := RunUntilFailure(Plan(p, wire), reply);
      && Expected(p, wire, reply).error == r.error
      && Expected(p, wire, reply).log == Events(r.issued) + (if Connected(p, reply) then [Closed] else [])
  {
    var talk := RunUntilFailure(ConversationCommands(p, wire), reply);
    RunCharacterized(ConnectCommands(p), reply);
    RunConcat(ConnectCommands(p), ConversationCommands(p, wire), reply);
    EventsAppend(ConnectCommands(p), talk.issued);
  }

  /**
   * When step `k` of the plan is the first to fail, `Send` returns its error,
   * has issued exactly the steps up to it, and closes the connection if the
   * failing step came after the connect steps.
   */
  lemma FirstFailureEndsSend(p: Params, wire: string, reply: Command -> Option<string>, k: nat)
    requires k < |Plan(p, wire)| && reply(Plan(p, wire)[k]).Some?
    requires forall i :: 0 <= i < k ==> reply(Plan(p, wire)[i]).None?
    ensures Expected(p, wire, reply).error == Some(ErrorOf(Plan(p, wire)[k], reply(Plan(p, wire)[k]).value))
    ensures Expected(p, wire, reply).log ==
      Events(Plan(p, wire)[..k + 1]) + (if k < |ConnectCommands(p)| then [] else [Closed])
  {
    var plan := Plan(p, wire);
    var connect := ConnectCommands(p);
    SendFollowsPlan(p, wire, reply);
    RunStopsAt(plan, reply, k);
    if k < |connect| {
      RunStopsAt(connect, reply, k);
    } else {
      RunCompletes(connect, reply);
    }
  }

  /**
   * `Send` returns no error exactly when every step succeeds, and then it has
   * issued the whole plan and closed the connection.
   */
  lemma SuccessIffEveryStepSucceeds(p: Params, wire: string, reply: Command -> Option<string>)
    ensures Expected(p, wire, reply).error.None? <==>
      forall i :: 0 <= i < |Plan(p, wire)| ==> reply(Plan(p, wire)[i]).None?
    ensures Expected(p, wire, reply).error.None? ==>
      Expected(p, wire, reply).log == Events(Plan(p, wire)) + [Closed]
  {
    var plan := Plan(p, wire);
    SendFollowsPlan(p, wire, reply);
    RunCharacterized(plan, reply);
    if forall i :: 0 <= i < |plan| ==> reply(plan[i]).None? {
      RunCompletes(plan, reply);
      var connect := ConnectCommands(p);
      assert forall i :: 0 <= i < |connect| ==> plan[i] == connect[i];
      RunCompletes(connect, reply);
    }
  }

  /**
   * When connecting fails, nothing but connect steps reaches the server, the
   * connection is not closed, and the error names the dial or the client.
   */
  lemma ConnectFailureSendsNoCommand(p: Params, wire: string, reply: Command -> Option<string>)
    requires !Connected(p, reply)
    ensures Closed !in Expected(p, wire, reply).log
    ensures forall e :: e in Expected(p, wire, reply).log ==> e.Issued? && IsConnectStep(e.command)
    ensures Expected(p, wire, reply).error.Some?
    ensures Expected(p, wire, reply).error.value.origin in {FromTlsDial, FromNewClient, FromDial}
  {
    var issued := RunUntilFailure(ConnectCommands(p), reply).issued;
    RunCharacterized(ConnectCommands(p), reply);
    assert forall c :: c in ConnectCommands(p) ==> IsConnectStep(c);
    assert forall i :: 0 <= i < |issued| ==> issued[i] in ConnectCommands(p);
  }

  /**
   * The connection is closed exactly when the connect steps succeeded, and
   * then once, after everything else.
   */
  lemma ClosedOnEveryExitAfterConnect(p: Params, wire: string, reply: Command -> Option<string>)
    ensures Closed in Expected(p, wire, reply).log <==> Connected(p, reply)
    ensures Connected(p, reply) ==>
      && Expected(p, wire, reply).log[|Expected(p, wire, reply).log| - 1] == Closed
      && multiset(Expected(p, wire, reply).log)[Closed] == 1
  {
  }

  /** Every authentication command carries a configured mechanism. */
  predicate Configured(auth: Option<AuthConfig>, m: Mechanism) {
    && auth.Some?
    && match m
       case CramMd5(userName, secret) => auth.value.cramMd5 == Some(CramMd5Auth(userName, secret))
       case Plain(identity, userName, password, host) =>
         identity == "" && auth.value.plain == Some(PlainAuth(userName, password, host))
  }

  lemma AuthCommandsAreConfigured(auth: Option<AuthConfig>)
    ensures forall c :: c in AuthCommands(auth) ==> c.Auth? && Configured(auth, c.mechanism)
  {
  }

  lemma AuthCommandsAreAuth(auth: Option<AuthConfig>)
    ensures forall c :: c in AuthCommands(auth) ==> c.Auth?
  {
  }

  /** Only the authentication steps of the plan are authentication commands. */
  lemma AuthOnlyInAuthSteps(p: Params, wire: string)
    ensures forall c :: c in Plan(p, wire) && c.Auth? ==> c in AuthCommands(p.auth)
  {
  }

  /** An event of a batch is the command of one of its members. */
  lemma InEvents(cmds: seq<Command>, e: Event)
    requires e in Events(cmds)
    ensures e.Issued? && e.command in cmds
  {
  }

  /** A member of a prefix is a member of the whole. */
  lemma InPrefix(a: seq<Command>, b: seq<Command>, c: Command)
    requires a <= b && c in a
    ensures c in b
  {
  }

  /**
   * `Send` authenticates only with mechanisms the configuration holds; with
   * no configuration it does not authenticate at all.
   */
  lemma AuthOnlyIfConfigured(p: Params, wire: string, reply: Command -> Option<string>)
    ensures forall e :: e in Expected(p, wire, reply).log && e.Issued? && e.command.Auth? ==>
      Configured(p.auth, e.command.mechanism)
  {
    var plan := Plan(p, wire);
    var r := RunUntilFailure(plan, reply);
    RunCharacterized(plan, reply);
    SendFollowsPlan(p, wire, reply);
    AuthOnlyInAuthSteps(p, wire);
    AuthCommandsAreConfigured(p.auth);
    forall e | e in Expected(p, wire, reply).log && e.Issued? && e.command.Auth?
      ensures Configured(p.auth, e.command.mechanism)
    {
      assert e in Events(r.issued);
      InEvents(r.issued, e);
      InPrefix(r.issued, plan, e.command);
    }
  }

  /** When an authentication step fails, the conversation ends inside the authentication. */
  lemma ConversationStopsInAuth(p: Params, wire: string, reply: Command -> Option<string>)
    requires RunUntilFailure(AuthCommands(p.auth), reply).error.Some?
    ensures RunUntilFailure(ConversationCommands(p, wire), reply) == RunUntilFailure(AuthCommands(p.auth), reply)
  {
    var auth := AuthCommands(p.auth);
    var envelope := EnvelopeCommands(p.header);
    RunConcat(auth + envelope, DeliveryCommands(wire), reply);
    RunConcat(auth, envelope, reply);
  }

  /** When an authentication step fails, `Send` reports an Auth error. */
  lemma AuthFailureReadsAsAuth(p: Params, wire: string, reply: Command -> Option<string>)
    requires Connected(p, reply)
    requires RunUntilFailure(AuthCommands(p.auth), reply).error.Some?
    ensures Expected(p, wire, reply).error.Some?
    ensures Expected(p, wire, reply).error.value.origin == FromAuth
  {
    var auth := AuthCommands(p.auth);
    var run := RunUntilFailure(auth, reply);
    ConversationStopsInAuth(p, wire, reply);
    RunCharacterized(auth, reply);
    AuthCommandsAreAuth(p.auth);
    var last := run.issued[|run.issued| - 1];
    assert last.Auth? by {
      InPrefix(run.issued, auth, last);
    }
  }

  /**
   * When an authentication step fails, none of MAIL, RCPT, DATA, the write
   * or QUIT reaches the server.
   */
  lemma AuthFailureStopsBeforeMail(p: Params, wire: string, reply: Command -> Option<string>)
    requires Connected(p, reply)
    requires RunUntilFailure(AuthCommands(p.auth), reply).error.Some?
    ensures forall e :: e in Expected(p, wire, reply).log && e.Issued? ==> !IsMailStep(e.command)
  {
    var auth := AuthCommands(p.auth);
    var connect := RunUntilFailure(ConnectCommands(p), reply);
    var run := RunUntilFailure(auth, reply);
    assert Expected(p, wire, reply).log == Events(connect.issued) + Events(run.issued) + [Closed] by {
      ConversationStopsInAuth(p, wire, reply);
    }
    assert forall e :: e in Events(connect.issued) ==> !IsMailStep(e.command) by {
      RunCharacterized(ConnectCommands(p), reply);
      assert forall c :: c in ConnectCommands(p) ==> !IsMailStep(c);
      NoMailStepInEvents(connect.issued, ConnectCommands(p));
    }
    assert forall e :: e in Events(run.issued) ==> !IsMailStep(e.command) by {
      RunCharacterized(auth, reply);
      AuthCommandsAreAuth(p.auth);
      NoMailStepInEvents(run.issued, auth);
    }
  }

  /** A prefix of commands none of which hands the message over logs no such step. */
  lemma NoMailStepInEvents(issued: seq<Command>, cmds: seq<Command>)
    requires issued <= cmds
    requires forall c :: c in cmds ==> !IsMailStep(c)
    ensures forall e :: e in Events(issued) ==> !IsMailStep(e.command)
  {
  }

  /**
   * With both mechanisms configured and the connection up, CRAM-MD5 is tried
   * first, right after the connect steps; PLAIN is tried exactly when
   * CRAM-MD5 succeeded, and then right after it.
   */
  lemma CramMd5BeforePlain(p: Params, wire: string, reply: Command -> Option<string>)
    requires p.auth.Some? && p.auth.value.cramMd5.Some? && p.auth.value.plain.Some?
    requires Connected(p, reply)
    ensures var cram := Auth(CramMd5(p.auth.value.cramMd5.value.userName, p.auth.value.cramMd5.value.secret));
      var plain := Auth(Plain("", p.auth.value.plain.value.userName, p.auth.value.plain.value.password,
                              p.auth.value.plain.value.host));
      var log := Expected(p, wire, reply).log;
      var n := |ConnectCommands(p)|;
      && |log| > n && log[n] == Issued(cram)
      && (Issued(plain) in log <==> reply(cram).None?)
      && (reply(cram).None? ==> |log| > n + 1 && log[n + 1] == Issued(plain))
  {
    var a := p.auth.value;
    var cram := Auth(CramMd5(a.cramMd5.value.userName, a.cramMd5.value.secret));
    var plain := Auth(Plain("", a.plain.value.userName, a.plain.value.password, a.plain.value.host));
    var connect := ConnectCommands(p);
    var conversation := ConversationCommands(p, wire);
    var talk := RunUntilFailure(conversation, reply);
    RunCharacterized(connect, reply);
    RunCharacterized(conversation, reply);
    assert conversation[0] == cram && conversation[1] == plain;
    assert RunUntilFailure(connect, reply).issued == connect;
    var log := Events(connect) + Events(talk.issued) + [Closed];
    assert Expected(p, wire, reply).log == log;
    if reply(cram).Some? {
      RunStopsAt(conversation, reply, 0);
      assert conversation[..1] == [cram];
      assert log == Events(connect) + [Issued(cram), Closed];
      if Issued(plain) in log {
        InEvents(connect, Issued(plain));
        assert false;
      }
    } else {
      assert |talk.issued| > 1;
      assert log[|connect| + 1] == Issued(plain);
    }
  }

  /**
   * When closing the data writer is the first step to fail, the error reads
   * exactly like a failed QUIT, QUIT is never sent, and the connection is
   * still closed.
   */
  lemma WriterCloseFailureReadsAsQuit(p: Params, wire: string, reply: Command -> Option<string>)
    requires forall i :: 0 <= i < |Plan(p, wire)| - 2 ==> reply(Plan(p, wire)[i]).None?
    requires reply(CloseWriter).Some?
    ensures Expected(p, wire, reply).error == Some(ErrorOf(Quit, reply(CloseWriter).value))
    ensures Text(Expected(p, wire, reply).error.value) == "(*Client) Quit() error. err=" + reply(CloseWriter).value
    ensures Expected(p, wire, reply).log == Events(Plan(p, wire)[..|Plan(p, wire)| - 1]) + [Closed]
  {
    var plan := Plan(p, wire);
    var k := |plan| - 2;
    assert plan == ConnectCommands(p) + AuthCommands(p.auth) + EnvelopeCommands(p.header) + DeliveryCommands(wire);
    assert plan[k] == CloseWriter;
    FirstFailureEndsSend(p, wire, reply, k);
  }

  /** A configuration built by GenCRAMMD5Auth or GenPlainAuth authenticates exactly once. */
  lemma GeneratedAuthIssuesOneCommand(userName: string, secret: string, password: string, host: string)
    ensures AuthCommands(Some(GenCramMd5Auth(userName, secret))) == [Auth(CramMd5(userName, secret))]
    ensures AuthCommands(Some(GenPlainAuth(userName, password, host))) == [Auth(Plain("", userName, password, host))]
  {
  }
}

/**
 * The module-level state of server.js and its event handlers: the live
 * Baileys socket, the sessions created so far, the socket.io broadcast log
 * and what each attached browser observer has received.
 */
module Server {
  import opened Wrappers
  import opened Emissions
  import opened ConnectionUpdate
  import opened MessagesUpsert
  import opened History

  /** A socket.io connection id. */
  type ObserverId = string

  /** The handle made by one session creation, numbered from 1. */
  datatype Socket = Socket(generation: nat)

  /** What a newly attached observer is sent, given whether the live socket has a `user`. */
  function Greeting(hasUser: bool): (s: seq<Emission>)
    ensures |s| >= 1 && s[0] == Status(Initializing)
    ensures hasUser ==> s[1..] == [Status(Connected), Qr(None)]
    ensures !hasUser ==> s == [Status(Initializing)]
    // a late observer is never shown a QR image, only told to hide one
    ensures forall e :: e in s ==> e.Status? || e == Qr(None)
  {
    if hasUser then [Status(Initializing), Status(Connected), Qr(None)] else [Status(Initializing)]
  }

  class Controller {
    /** Rendering of a QR string into an image data URL (the qrcode package). */
    const toDataUrl: string -> string
    /** How many times a session was created. */
    var sessionsCreated: nat
    /** The module-level `sock`: undefined until the first session is created. */
    var sock: Option<Socket>
    /** Every `io.emit`, in order. */
    var broadcasts: seq<Emission>
    /** What each attached observer has received, in order. */
    var inbox: map<ObserverId, seq<Emission>>

    /** The socket events handled so far. */
    ghost var history: seq<Input>
    /** For each observer, the length of `broadcasts` when it attached. */
    ghost var joinedAt: map<ObserverId, nat>
    /** For each observer, what it was sent directly on attaching. */
    ghost var greeting: map<ObserverId, seq<Emission>>

    /** The live socket is the one made by the latest session creation. */
    ghost predicate SessionValid()
      reads this`sock, this`sessionsCreated, this`history
    {
      && sock == (if sessionsCreated == 0 then None else Some(Socket(sessionsCreated)))
      && (sessionsCreated == 0 ==> history == [])
      && (sessionsCreated > 0 ==> sessionsCreated == 1 + Reconnects(history))
    }

    /** Each observer has received its greeting and then every broadcast made since it attached. */
    ghost predicate ObserversValid()
      reads this`inbox, this`joinedAt, this`greeting, this`broadcasts
    {
      && inbox.Keys == joinedAt.Keys == greeting.Keys
      && forall o :: o in inbox ==> joinedAt[o] <= |broadcasts| && inbox[o] == greeting[o] + broadcasts[joinedAt[o]..]
    }

    ghost predicate Valid()
      reads this
    {
      SessionValid() && ObserversValid() && broadcasts == Log(history, toDataUrl)
    }

    /** The state at module load: no socket yet, no observers. */
    constructor (toDataUrl: string -> string)
      ensures Valid()
      ensures this.toDataUrl == toDataUrl
      ensures sessionsCreated == 0 && sock == None && broadcasts == [] && inbox == map[] && history == []
    {
      this.toDataUrl := toDataUrl;
      sessionsCreated := 0;
      sock := None;
      broadcasts := [];
      inbox := map[];
      history := [];
      joinedAt := map[];
      greeting := map[];
    }

    /**
     * `connectToWhatsApp`: load the stored credentials, make a new socket and
     * make it the live one. The handlers registered on it are this object's
     * `On...` methods.
     */
    method Connect()
      modifies this`sessionsCreated, this`sock
      ensures sessionsCreated == old(sessionsCreated) + 1
      ensures sock == Some(Socket(sessionsCreated))
    {
      sessionsCreated := sessionsCreated + 1;
      sock := Some(Socket(sessionsCreated));
    }

    /** The first session, made once when the process starts. */
    method Start()
      requires Valid() && sessionsCreated == 0
      modifies this`sessionsCreated, this`sock
      ensures Valid()
      ensures sessionsCreated == 1 && sock == Some(Socket(1))
    {
      Connect();
    }

    /** `io.emit`: every attached observer receives `e`. */
    method Broadcast(e: Emission)
      requires ObserversValid()
      modifies this`broadcasts, this`inbox
      ensures ObserversValid()
      ensures broadcasts == old(broadcasts) + [e]
      ensures inbox.Keys == old(inbox).Keys
      ensures forall o :: o in inbox ==> inbox[o] == old(inbox)[o] + [e]
    {
      forall o | o in inbox
        ensures (broadcasts + [e])[joinedAt[o]..] == broadcasts[joinedAt[o]..] + [e]
      {
      }
      broadcasts := broadcasts + [e];
      inbox := map o | o in inbox :: inbox[o] + [e];
    }

    /** The `if (qr)` block: broadcast the rendered QR, then the scan prompt. */
    method AnnounceQr(qr: Option<string>)
      requires ObserversValid()
      modifies this`broadcasts, this`inbox
      ensures ObserversValid()
      ensures broadcasts == old(broadcasts) + QrEmissions(qr, toDataUrl)
      ensures inbox.Keys == old(inbox).Keys
    {
      if Truthy(qr) {
        Broadcast(Qr(Some(toDataUrl(qr.value))));
        Broadcast(Status(ScanQrCode));
      }
    }

    /** The close branch, once `lastDisconnect` has been read. */
    method HandleClose(ld: LastDisconnect) returns (reconnect: bool)
      requires ObserversValid()
      modifies this`broadcasts, this`inbox, this`sessionsCreated, this`sock
      ensures ObserversValid()
      ensures reconnect == (StatusCode(ld) != Some(LoggedOut))
      ensures broadcasts == old(broadcasts) + ConnectionBranch(Some(Close), Some(ld)).emitted
      ensures reconnect ==> sessionsCreated == old(sessionsCreated) + 1 && sock == Some(Socket(sessionsCreated))
      ensures !reconnect ==> sessionsCreated == old(sessionsCreated) && sock == old(sock)
      ensures inbox.Keys == old(inbox).Keys
    {
      reconnect := StatusCode(ld) != Some(LoggedOut);
      Broadcast(Status(ConnectionLost));
      if reconnect {
        Connect();
      } else {
        Broadcast(Status(LoggedOutNotice));
      }
    }

    /** The open branch: hide the QR, then report the connection. */
    method HandleOpen()
      requires ObserversValid()
      modifies this`broadcasts, this`inbox
      ensures ObserversValid()
      ensures broadcasts == old(broadcasts) + ConnectionBranch(Some(Open), None).emitted
      ensures inbox.Keys == old(inbox).Keys
    {
      Broadcast(Qr(None));
      Broadcast(Status(ConnectedOnline));
    }

    /** The `if (connection === 'close') ... else if (connection === 'open')` part of the handler. */
    method HandleConnection(connection: Option<Connection>, lastDisconnect: Option<LastDisconnect>) returns (threw: bool)
      requires ObserversValid()
      modifies this`broadcasts, this`inbox, this`sessionsCreated, this`sock
      ensures ObserversValid()
      ensures broadcasts == old(broadcasts) + ConnectionBranch(connection, lastDisconnect).emitted
      ensures threw == ConnectionBranch(connection, lastDisconnect).threw
      ensures ConnectionBranch(connection, lastDisconnect).reconnect ==>
                sessionsCreated == old(sessionsCreated) + 1 && sock == Some(Socket(sessionsCreated))
      ensures !ConnectionBranch(connection, lastDisconnect).reconnect ==>
                sessionsCreated == old(sessionsCreated) && sock == old(sock)
      ensures inbox.Keys == old(inbox).Keys
    {
      threw := false;
      if connection == Some(Close) {
        match lastDisconnect {
          case None =>
            threw := true;
          case Some(ld) =>
            var reconnect := HandleClose(ld);
        }
      } else if connection == Some(Open) {
        HandleOpen();
      }
    }

    /** The `connection.update` handler. */
    method OnConnectionUpdate(u: Update) returns (threw: bool)
      requires Valid() && sock.Some?
      modifies this`broadcasts, this`inbox, this`sessionsCreated, this`sock, this`history
      ensures Valid()
      ensures history == old(history) + [ConnectionUpdated(u)]
      ensures broadcasts == old(broadcasts) + React(u, toDataUrl).emitted
      ensures threw == React(u, toDataUrl).threw
      ensures sessionsCreated == old(sessionsCreated) + (if React(u, toDataUrl).reconnect then 1 else 0)
    {
      ghost var before := broadcasts;
      AnnounceQr(u.qr);
      threw := HandleConnection(u.connection, u.lastDisconnect);
      assert Emitted(ConnectionUpdated(u), toDataUrl)
          == QrEmissions(u.qr, toDataUrl) + ConnectionBranch(u.connection, u.lastDisconnect).emitted;
      Record(ConnectionUpdated(u), before);
    }

    /** Appends the event just handled to the history, once its broadcasts and session count are in place. */
    ghost method Record(i: Input, before: seq<Emission>)
      requires ObserversValid() && sessionsCreated > 0 && sock == Some(Socket(sessionsCreated))
      requires before == Log(history, toDataUrl) && broadcasts == before + Emitted(i, toDataUrl)
      requires sessionsCreated == 1 + Reconnects(history) + (if IsReconnectInput(i) then 1 else 0)
      modifies this`history
      ensures Valid()
      ensures history == old(history) + [i]
    {
      LogAppend(history, i, toDataUrl);
      ReconnectsAppend(history, [i]);
      CountIfSingle(i, IsReconnectInput);
      history := history + [i];
    }

    /** The `messages.upsert` handler. */
    method OnMessagesUpsert(messages: seq<WAMessage>) returns (threw: bool)
      requires Valid() && sock.Some?
      modifies this`broadcasts, this`inbox, this`history
      ensures Valid()
      ensures history == old(history) + [MessagesUpserted(messages)]
      ensures threw <==> messages == []
      ensures OnUpsert(messages).Forward? ==> broadcasts == old(broadcasts) + [OnUpsert(messages).event]
      ensures !OnUpsert(messages).Forward? ==> broadcasts == old(broadcasts)
      ensures inbox.Keys == old(inbox).Keys
    {
      threw := messages == [];
      ghost var before := broadcasts;
      var outcome := OnUpsert(messages);
      if outcome.Forward? {
        Broadcast(outcome.event);
      }
      Record(MessagesUpserted(messages), before);
    }

    /**
     * The socket.io `connection` handler: the new observer `o` is greeted;
     * nobody else receives anything. `hasUser` says whether the live
     * socket's `user` is set, which Baileys does once the device is linked.
     */
    method OnAttach(o: ObserverId, hasUser: bool)
      requires Valid() && o !in inbox
      modifies this`inbox, this`joinedAt, this`greeting
      ensures Valid()
      ensures inbox == old(inbox)[o := Greeting(sock.Some? && hasUser)]
    {
      var sent := [Status(Initializing)];
      if sock.Some? && hasUser {
        sent := sent + [Status(Connected), Qr(None)];
      }
      assert sent == Greeting(sock.Some? && hasUser);
      inbox := inbox[o := sent];
      joinedAt := joinedAt[o := |broadcasts|];
      greeting := greeting[o := sent];
    }
  }
}

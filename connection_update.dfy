/**
 * The `connection.update` handler of server.js: from one update
 * `{connection?, lastDisconnect?, qr?}` to the ordered broadcasts it makes
 * and whether it starts a new session.
 */
module ConnectionUpdate {
  import opened Wrappers
  import opened Emissions

  /** Baileys' connection states. */
  datatype Connection = Connecting | Open | Close

  /** The Boom error's `output`, of which only `statusCode` is read. */
  datatype BoomOutput = BoomOutput(statusCode: Option<int>)
  datatype DisconnectError = DisconnectError(output: Option<BoomOutput>)
  datatype LastDisconnect = LastDisconnect(error: Option<DisconnectError>)

  datatype Update = Update(connection: Option<Connection>, lastDisconnect: Option<LastDisconnect>, qr: Option<string>)

  /** Baileys' `DisconnectReason.loggedOut`. */
  const LoggedOut: int := 401

  /** The status code of a close reason, read through optional links: absent when any link is absent. */
  function StatusCode(ld: LastDisconnect): (code: Option<int>)
    ensures ld.error.None? ==> code.None?
    ensures ld.error.Some? && ld.error.value.output.None? ==> code.None?
    ensures ld.error.Some? && ld.error.value.output.Some? ==> code == ld.error.value.output.value.statusCode
  {
    match ld.error
    case None => None
    case Some(e) =>
      match e.output
      case None => None
      case Some(o) => o.statusCode
  }

  /**
   * The reconnect decision: reconnect unless the status code is strictly
   * equal to the logged-out sentinel. `None` when `lastDisconnect` itself is
   * absent: reading its `error` then throws a TypeError before any decision.
   */
  function ShouldReconnect(lastDisconnect: Option<LastDisconnect>): (r: Option<bool>)
    ensures r.None? <==> lastDisconnect.None?
    ensures r == Some(false) <==> lastDisconnect.Some? && StatusCode(lastDisconnect.value) == Some(LoggedOut)
    ensures lastDisconnect.Some? && lastDisconnect.value.error.None? ==> r == Some(true)
    ensures lastDisconnect.Some? && StatusCode(lastDisconnect.value).None? ==> r == Some(true)
  {
    match lastDisconnect
    case None => None
    case Some(ld) => Some(StatusCode(ld) != Some(LoggedOut))
  }

  /** A close the handler can evaluate (it carries `lastDisconnect`). */
  predicate IsClose(u: Update) {
    u.connection == Some(Close) && u.lastDisconnect.Some?
  }

  /** A close whose status code is the logged-out sentinel. */
  predicate IsLogout(u: Update) {
    IsClose(u) && StatusCode(u.lastDisconnect.value) == Some(LoggedOut)
  }

  /** A close on which the handler throws, because `lastDisconnect` is absent. */
  predicate Throws(u: Update) {
    u.connection == Some(Close) && u.lastDisconnect.None?
  }

  /** What one invocation of the handler does. */
  datatype Reaction = Reaction(emitted: seq<Emission>, reconnect: bool, threw: bool)

  /** The broadcasts of the `if (qr)` block: the rendered image, then the scan prompt. */
  function QrEmissions(qr: Option<string>, toDataUrl: string -> string): (s: seq<Emission>)
    ensures Truthy(qr) <==> |s| == 2
    ensures !Truthy(qr) <==> s == []
    ensures Truthy(qr) ==> s[0] == Qr(Some(toDataUrl(qr.value))) && s[1] == Status(ScanQrCode)
  {
    if Truthy(qr) then [Qr(Some(toDataUrl(qr.value))), Status(ScanQrCode)] else []
  }

  /**
   * The second part of the handler: the close branch or the open branch,
   * chosen by `connection`.
   */
  function ConnectionBranch(connection: Option<Connection>, lastDisconnect: Option<LastDisconnect>): (r: Reaction)
    // exactly the closes that are not logouts start a new session
    ensures r.reconnect <==> connection == Some(Close) && ShouldReconnect(lastDisconnect) == Some(true)
    ensures r.threw <==> connection == Some(Close) && lastDisconnect.None?
    // a close first reports the lost connection, and a logout then says so
    ensures connection == Some(Close) && ShouldReconnect(lastDisconnect) == Some(true) ==>
              r.emitted == [Status(ConnectionLost)]
    ensures connection == Some(Close) && ShouldReconnect(lastDisconnect) == Some(false) ==>
              r.emitted == [Status(ConnectionLost), Status(LoggedOutNotice)]
    // an open hides the QR, then reports the connection
    ensures connection == Some(Open) ==> r.emitted == [Qr(None), Status(ConnectedOnline)]
    // a throwing close and every other state emit nothing
    ensures r.threw || (connection != Some(Open) && connection != Some(Close)) ==> r.emitted == []
  {
    match connection
    case Some(Close) =>
      (match ShouldReconnect(lastDisconnect)
       case None => Reaction([], false, true)
       case Some(again) =>
         Reaction([Status(ConnectionLost)] + (if again then [] else [Status(LoggedOutNotice)]), again, false))
    case Some(Open) => Reaction([Qr(None), Status(ConnectedOnline)], false, false)
    case _ => Reaction([], false, false)
  }

  /**
   * The handler's reaction to one update, QR rendering being `toDataUrl`:
   * the QR block runs first, then the connection branch.
   */
  function React(u: Update, toDataUrl: string -> string): (r: Reaction)
    // exactly the evaluated closes that are not logouts start a new session
    ensures r.reconnect <==> IsClose(u) && !IsLogout(u)
    ensures r.threw <==> Throws(u)
  {
    var branch := ConnectionBranch(u.connection, u.lastDisconnect);
    Reaction(QrEmissions(u.qr, toDataUrl) + branch.emitted, branch.reconnect, branch.threw)
  }

  /** The order of the broadcasts of one update, branch by branch. */
  lemma ReactionOrder(u: Update, toDataUrl: string -> string)
    ensures var r, lead := React(u, toDataUrl), QrEmissions(u.qr, toDataUrl);
      // QR broadcasts always come first
      && |lead| <= |r.emitted| && r.emitted[..|lead|] == lead
      // every evaluated close reports the lost connection right after them, and a logout then says so
      && (IsClose(u) ==> |r.emitted| > |lead| && r.emitted[|lead|] == Status(ConnectionLost))
      && (IsClose(u) && !IsLogout(u) ==> r.emitted == lead + [Status(ConnectionLost)])
      && (IsLogout(u) ==> r.emitted == lead + [Status(ConnectionLost), Status(LoggedOutNotice)])
      // an open hides the QR and reports the connection
      && (u.connection == Some(Open) ==> r.emitted == lead + [Qr(None), Status(ConnectedOnline)])
      // a throwing close, a 'connecting' update or a bare update broadcasts only the QR block
      && (Throws(u) || (u.connection != Some(Open) && u.connection != Some(Close)) ==> r.emitted == lead)
      // nothing without a QR and without open/close
      && (!Truthy(u.qr) && u.connection != Some(Open) && u.connection != Some(Close) ==> r.emitted == [])
  {
    var r, lead := React(u, toDataUrl), QrEmissions(u.qr, toDataUrl);
    assert r.emitted == lead + ConnectionBranch(u.connection, u.lastDisconnect).emitted;
  }

  /** The handler never broadcasts a `new_message`. */
  lemma ReactionHasNoMessage(u: Update, toDataUrl: string -> string)
    ensures forall e :: e in React(u, toDataUrl).emitted ==> !e.NewMessage?
  {
  }
}

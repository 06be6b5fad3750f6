/**
 * The events the server handles one after another, and the `io.emit` log
 * they produce. Handlers run to completion in arrival order, so the log is
 * the concatenation of each event's broadcasts.
 */
module History {
  import opened Wrappers
  import opened Emissions
  import opened ConnectionUpdate
  import opened MessagesUpsert

  /** An event from the live Baileys socket that has a handler in server.js. */
  datatype Input =
    | ConnectionUpdated(update: Update)
    | MessagesUpserted(messages: seq<WAMessage>)

  /** The broadcasts made while handling one event. */
  function Emitted(i: Input, toDataUrl: string -> string): (s: seq<Emission>)
    ensures i.ConnectionUpdated? ==> s == React(i.update, toDataUrl).emitted
    ensures i.MessagesUpserted? && OnUpsert(i.messages).Forward? ==> s == [OnUpsert(i.messages).event]
    ensures i.MessagesUpserted? && !OnUpsert(i.messages).Forward? ==> s == []
  {
    match i
    case ConnectionUpdated(u) => React(u, toDataUrl).emitted
    case MessagesUpserted(ms) =>
      match OnUpsert(ms)
      case Forward(e) => [e]
      case _ => []
  }

  /** The whole `io.emit` log after handling `h` in order. */
  function Log(h: seq<Input>, toDataUrl: string -> string): seq<Emission>
    decreases |h|
  {
    if h == [] then [] else Log(h[..|h| - 1], toDataUrl) + Emitted(h[|h| - 1], toDataUrl)
  }

  /** How many elements of `s` satisfy `p`. */
  function CountIf<T>(s: seq<T>, p: T -> bool): nat
    decreases |s|
  {
    if s == [] then 0 else CountIf(s[..|s| - 1], p) + (if p(s[|s| - 1]) then 1 else 0)
  }

  predicate IsLostNotice(e: Emission) { e == Status(ConnectionLost) }
  predicate IsLogoutNotice(e: Emission) { e == Status(LoggedOutNotice) }
  predicate IsNewMessage(e: Emission) { e.NewMessage? }

  predicate IsCloseInput(i: Input) { i.ConnectionUpdated? && IsClose(i.update) }
  predicate IsLogoutInput(i: Input) { i.ConnectionUpdated? && IsLogout(i.update) }
  predicate IsReconnectInput(i: Input) { i.ConnectionUpdated? && IsClose(i.update) && !IsLogout(i.update) }
  predicate IsForwardedInput(i: Input) { i.MessagesUpserted? && OnUpsert(i.messages).Forward? }

  /** The number of sessions `h` makes the handler create: one per non-logout close. */
  function Reconnects(h: seq<Input>): nat {
    CountIf(h, IsReconnectInput)
  }

  lemma LogAppend(h: seq<Input>, i: Input, toDataUrl: string -> string)
    ensures Log(h + [i], toDataUrl) == Log(h, toDataUrl) + Emitted(i, toDataUrl)
  {
    assert (h + [i])[..|h|] == h;
  }

  /** Counting distributes over concatenation. */
  lemma {:induction false} CountIfAppend<T>(a: seq<T>, b: seq<T>, p: T -> bool)
    ensures CountIf(a + b, p) == CountIf(a, p) + CountIf(b, p)
    decreases |b|
  {
    if b == [] {
      assert a + b == a;
    } else {
      var b' := b[..|b| - 1];
      CountIfAppend(a, b', p);
      assert (a + b)[..|a + b| - 1] == a + b';
    }
  }

  lemma CountIfSingle<T>(x: T, p: T -> bool)
    ensures CountIf([x], p) == if p(x) then 1 else 0
  {
    assert [x][..0] == [];
  }

  lemma CountIfPair<T>(x: T, y: T, p: T -> bool)
    ensures CountIf([x, y], p) == (if p(x) then 1 else 0) + (if p(y) then 1 else 0)
  {
    assert [x, y][..1] == [x];
    CountIfSingle(x, p);
  }

  /** The counts of one event's broadcasts. */
  lemma EmittedCounts(i: Input, toDataUrl: string -> string)
    ensures CountIf(Emitted(i, toDataUrl), IsLostNotice) == (if IsCloseInput(i) then 1 else 0)
    ensures CountIf(Emitted(i, toDataUrl), IsLogoutNotice) == (if IsLogoutInput(i) then 1 else 0)
    ensures CountIf(Emitted(i, toDataUrl), IsNewMessage) == (if IsForwardedInput(i) then 1 else 0)
  {
    var s := Emitted(i, toDataUrl);
    assert ScanQrCode != ConnectionLost && ScanQrCode != LoggedOutNotice;
    assert ConnectedOnline != ConnectionLost && ConnectedOnline != LoggedOutNotice;
    assert LoggedOutNotice != ConnectionLost;
    if i.ConnectionUpdated? {
      var u := i.update;
      var lead := QrEmissions(u.qr, toDataUrl);
      NoneCounted(lead, IsLostNotice);
      NoneCounted(lead, IsLogoutNotice);
      NoneCounted(lead, IsNewMessage);
      var tail := s[|lead|..];
      assert s == lead + tail;
      CountIfAppend(lead, tail, IsLostNotice);
      CountIfAppend(lead, tail, IsLogoutNotice);
      CountIfAppend(lead, tail, IsNewMessage);
      if IsLogout(u) {
        assert tail == [Status(ConnectionLost), Status(LoggedOutNotice)];
        CountIfPair(Status(ConnectionLost), Status(LoggedOutNotice), IsLostNotice);
        CountIfPair(Status(ConnectionLost), Status(LoggedOutNotice), IsLogoutNotice);
        CountIfPair(Status(ConnectionLost), Status(LoggedOutNotice), IsNewMessage);
      } else if IsClose(u) {
        assert tail == [Status(ConnectionLost)];
        CountIfSingle(Status(ConnectionLost), IsLostNotice);
        CountIfSingle(Status(ConnectionLost), IsLogoutNotice);
        CountIfSingle(Status(ConnectionLost), IsNewMessage);
      } else if u.connection == Some(Open) {
        assert tail == [Qr(None), Status(ConnectedOnline)];
        CountIfPair(Qr(None), Status(ConnectedOnline), IsLostNotice);
        CountIfPair(Qr(None), Status(ConnectedOnline), IsLogoutNotice);
        CountIfPair(Qr(None), Status(ConnectedOnline), IsNewMessage);
      } else {
        assert tail == [];
      }
    } else if IsForwardedInput(i) {
      var e := OnUpsert(i.messages).event;
      CountIfSingle(e, IsLostNotice);
      CountIfSingle(e, IsLogoutNotice);
      CountIfSingle(e, IsNewMessage);
    }
  }

  /**
   * Over any history, every close with a reason is reported once as a lost
   * connection, and every logout close once more with the logout notice.
   */
  lemma {:induction false} LostConnectionsReported(h: seq<Input>, toDataUrl: string -> string)
    ensures CountIf(Log(h, toDataUrl), IsLostNotice) == CountIf(h, IsCloseInput)
    ensures CountIf(Log(h, toDataUrl), IsLogoutNotice) == CountIf(h, IsLogoutInput)
    decreases |h|
  {
    if h != [] {
      var h', i := h[..|h| - 1], h[|h| - 1];
      var before, now := Log(h', toDataUrl), Emitted(i, toDataUrl);
      assert Log(h, toDataUrl) == before + now;
      LostConnectionsReported(h', toDataUrl);
      CountIfAppend(before, now, IsLostNotice);
      CountIfAppend(before, now, IsLogoutNotice);
      EmittedCounts(i, toDataUrl);
    }
  }

  /**
   * Over any history, each close with a reason is resolved either by
   * exactly one new session or, for the logged-out sentinel, by none.
   */
  lemma {:induction false} ClosesResolved(h: seq<Input>)
    ensures CountIf(h, IsCloseInput) == Reconnects(h) + CountIf(h, IsLogoutInput)
    decreases |h|
  {
    if h != [] {
      ClosesResolved(h[..|h| - 1]);
    }
  }

  /** Over any history, one `new_message` is broadcast per batch whose first message is forwarded. */
  lemma {:induction false} MessagesForwarded(h: seq<Input>, toDataUrl: string -> string)
    ensures CountIf(Log(h, toDataUrl), IsNewMessage) == CountIf(h, IsForwardedInput)
    decreases |h|
  {
    if h != [] {
      var h', i := h[..|h| - 1], h[|h| - 1];
      assert Log(h, toDataUrl) == Log(h', toDataUrl) + Emitted(i, toDataUrl);
      MessagesForwarded(h', toDataUrl);
      CountIfAppend(Log(h', toDataUrl), Emitted(i, toDataUrl), IsNewMessage);
      EmittedCounts(i, toDataUrl);
    }
  }

  /** A `new_message` broadcast while handling one event is that batch's projection. */
  lemma EmittedMessageSource(i: Input, toDataUrl: string -> string, e: Emission)
    requires e in Emitted(i, toDataUrl) && e.NewMessage?
    ensures i.MessagesUpserted? && OnUpsert(i.messages) == Forward(e)
  {
    if i.ConnectionUpdated? {
      ReactionHasNoMessage(i.update, toDataUrl);
    }
  }

  /**
   * Every `new_message` in the log is the projection of a batch that was
   * handled, so it never comes from a self-sent or payload-less message.
   */
  lemma {:induction false} NewMessageHasSource(h: seq<Input>, toDataUrl: string -> string, k: nat)
    requires k < |Log(h, toDataUrl)| && Log(h, toDataUrl)[k].NewMessage?
    ensures exists j :: 0 <= j < |h| && h[j].MessagesUpserted? && OnUpsert(h[j].messages) == Forward(Log(h, toDataUrl)[k])
    decreases |h|
  {
    var h', i := h[..|h| - 1], h[|h| - 1];
    var before := Log(h', toDataUrl);
    assert Log(h, toDataUrl) == before + Emitted(i, toDataUrl);
    if k < |before| {
      NewMessageHasSource(h', toDataUrl, k);
      var j :| 0 <= j < |h'| && h'[j].MessagesUpserted? && OnUpsert(h'[j].messages) == Forward(before[k]);
      assert h[j] == h'[j];
    } else {
      var e := Emitted(i, toDataUrl)[k - |before|];
      EmittedMessageSource(i, toDataUrl, e);
      assert h[|h| - 1] == i;
    }
  }

  /** Sessions created over consecutive histories add up. */
  lemma ReconnectsAppend(h1: seq<Input>, h2: seq<Input>)
    ensures Reconnects(h1 + h2) == Reconnects(h1) + Reconnects(h2)
  {
    CountIfAppend(h1, h2, IsReconnectInput);
  }

  /**
   * A logout close creates no session; after it, the count grows only if a
   * further close with another reason is delivered. server.js keeps no
   * logged-out latch: the guarantee rests on the closed socket emitting no
   * more events.
   */
  lemma {:induction false} NoSessionAfterLogout(h: seq<Input>, u: Update, rest: seq<Input>)
    requires IsLogout(u)
    requires forall j :: 0 <= j < |rest| ==> !IsReconnectInput(rest[j])
    ensures Reconnects(h + [ConnectionUpdated(u)] + rest) == Reconnects(h)
  {
    ReconnectsAppend(h + [ConnectionUpdated(u)], rest);
    ReconnectsAppend(h, [ConnectionUpdated(u)]);
    NoneCounted(rest, IsReconnectInput);
    assert [ConnectionUpdated(u)][..0] == [];
  }

  lemma {:induction false} NoneCounted<T>(s: seq<T>, p: T -> bool)
    requires forall j :: 0 <= j < |s| ==> !p(s[j])
    ensures CountIf(s, p) == 0
    decreases |s|
  {
    if s != [] {
      NoneCounted(s[..|s| - 1], p);
    }
  }
}

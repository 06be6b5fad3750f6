/** Optional JavaScript values: `undefined` and `null` are both `None`. */
module Wrappers {
  datatype Option<+T> = None | Some(value: T)
}

/**
 * What the server pushes to its browser observers over socket.io, with
 * `io.emit` (to every attached observer) or `socket.emit` (to one), and the
 * fixed status strings it uses.
 */
module Emissions {
  import opened Wrappers

  /** One push-channel event: its kind and its payload. */
  datatype Emission =
    | Qr(image: Option<string>)       // 'qr': an image data URL, or null meaning "hide the QR"
    | Status(text: string)            // 'status': a human-readable status line
    | NewMessage(remoteJid: Option<string>, pushName: string, text: string)  // 'new_message'

  const ScanQrCode: string := "Scan the QR Code"
  const ConnectionLost: string := "Connection Lost. Reconnecting..."
  const LoggedOutNotice: string := "Logged out. Delete \"auth_info_baileys\" folder to re-scan."
  const ConnectedOnline: string := "Connected & Online"
  const Initializing: string := "Initializing..."
  const Connected: string := "Connected"
  const MediaUnknown: string := "Media/Unknown"
  const UnknownUser: string := "Unknown User"

  /** JavaScript truthiness of an optional string: absent, null and "" are falsy. */
  predicate Truthy(s: Option<string>) {
    s.Some? && s.value != ""
  }

  /** JavaScript `a || fallback` where `a` is an optional string. */
  function Or(a: Option<string>, fallback: string): (r: string)
    ensures Truthy(a) ==> r == a.value
    ensures !Truthy(a) ==> r == fallback
    ensures r != "" <==> Truthy(a) || fallback != ""
  {
    if Truthy(a) then a.value else fallback
  }
}

/** The message vocabulary shared by the sessions and the hub: what a client
    sends (C2S), what the hub broadcasts (S2C), and the commands a session
    posts to the hub's mailbox. The types carry no behaviour of their own. */
module Packets {

  /** The hub-side capability to deliver an S2C event to one session. It is
      opaque: the model only ever compares two of them for equality. */
  datatype Recipient = Recipient(handle: nat)

  /** Events a client sends over its websocket, after decoding. */
  datatype C2S =
    | Play(ytLink: string)
    | Skip
    | Ready1
    | Ready2
    | Playing

  datatype ConnectNotification = ConnectNotification(id: string)

  datatype DisconnectNotification = DisconnectNotification(id: string)

  /** Events the hub broadcasts to its members. Constructors that share a
      name with a type or with another datatype's constructor are always
      written qualified, `S2C.Play`. */
  datatype S2C =
    | ConnectNotification(connect: ConnectNotification)
    | DisconnectNotification(disconnect: DisconnectNotification)
    | Play(ytLink: string)
    | Start
    | Skip

  /** The messages a session posts to the hub, one constructor per message
      struct the hub has a handler for. */
  datatype Command =
    | Connect(id: string, addr: Recipient, connectNotif: ConnectNotification)
    | Disconnect(id: string, disconnectNotif: DisconnectNotification)
    | Play(link: string)
    | Skip
    | Ready2(id: string)
    | Poll

  /** The Connect a session posts for itself: the notification names the
      session's own id. */
  function ConnectAs(id: string, addr: Recipient): Command
  {
    Connect(id, addr, ConnectNotification.ConnectNotification(id))
  }

  /** The Disconnect a session posts for itself, likewise. */
  function DisconnectAs(id: string): Command
  {
    Disconnect(id, DisconnectNotification.DisconnectNotification(id))
  }
}

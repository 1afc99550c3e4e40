/**
 * The messages the tunnel server writes to the client agent, and the tunnel
 * descriptor they carry. A message is a type, a payload map and a header map;
 * its wire encoding is outside the model.
 */
module Protocol {
  import opened Wrappers

  const RequestProxyType: string := "request_proxy"
  const StartProxyType: string := "start_proxy"
  const ProxyConnectionIdHeader: string := "Proxy-Connection-ID"

  datatype Message = Message(kind: string, payload: map<string, string>, headers: map<string, string>)

  /** The tunnel descriptor: the public port the tunnel listens on and the
      serialised form (`toArray`) that is sent to the client. */
  datatype Tunnel = Tunnel(serverPort: int, fields: map<string, string>)

  /** The value of a header, or None when the message does not carry it. */
  function Header(m: Message, name: string): Option<string>
  {
    if name in m.headers then Some(m.headers[name]) else None
  }

  /** The proxy-connection id a message refers to, if it names one. */
  function ProxyConnectionId(m: Message): Option<string>
  {
    Header(m, ProxyConnectionIdHeader)
  }

  /** The message asking the client to open a data channel for connection `id`:
      it carries the tunnel's serialised form and exactly one header, from
      which the id is read back unchanged. */
  function RequestProxy(tunnel: Tunnel, id: string): (m: Message)
    ensures m.kind == RequestProxyType
    ensures m.payload == tunnel.fields
    ensures m.headers.Keys == {ProxyConnectionIdHeader}
    ensures ProxyConnectionId(m) == Some(id)
  {
    Message(RequestProxyType, tunnel.fields, map[ProxyConnectionIdHeader := id])
  }

  /** The message that opens a paired data channel; it names no connection. */
  function StartProxy(): (m: Message)
    ensures m.kind == StartProxyType
    ensures ProxyConnectionId(m) == None
  {
    Message(StartProxyType, map[], map[])
  }
}

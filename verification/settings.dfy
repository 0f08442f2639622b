/**
 The configuration records of src/store/context.h with their default values.
 */
module Settings {
  import opened Text

  type uint8 = x: int | 0 <= x < 0x100
  type uint16 = x: int | 0 <= x < 0x1_0000

  const DEFAULT_UDP_STUN := "stunserver2025.stunprotocol.org"
  const DEFAULT_TCP_STUN := "stunserver2025.stunprotocol.org"
  const DEFAULT_BOOTSTRAP := "bootstrap.jami.net"
  const DEFAULT_IP4_GATEWAY := "0.0.0.0:0"
  const DEFAULT_DHT_PORT: uint16 := 0

  // Codes of the enumerations as the user interface numbers them (src/ui/context.h, lines 18-39 and 75-92).
  const PROTO_ANY: int32 := 0
  const PROTO_UDP: int32 := 1
  const ROLE_EITHER: int32 := 0
  const ROLE_CLIENT: int32 := 1
  const ROLE_SERVER: int32 := 2
  const ROUTE_DIRECT: int32 := 0
  const LOG_INFO: int32 := 4
  const LOG_DEBUG: int32 := 5
  const CHECKUP_STRICT: int32 := 1

  datatype Journal = Journal(folder: string, level: int32)
  datatype Puncher = Puncher(udpStun: string, tcpStun: string, test: int32, hops: uint8)
  datatype DhtNode = DhtNode(bootstrap: string, port: uint16, network: uint32)
  datatype Emailer = Emailer(
    smtpServer: string, imapServer: string, login: string, password: string, cert: string, key: string, ca: string)
  datatype Ricochet = Ricochet(server: string, cert: string, key: string, ca: string)

  datatype Config = Config(
    pier: string, repo: string, log: Journal, puncher: Puncher, dht: DhtNode, email: Emailer, relay: Ricochet)

  datatype Service = Service(
    local: bool, name: string, pier: string, address: string, gateway: string, rendezvous: string,
    proto: int32, role: int32, route: int32, autostart: bool, obscure: bool)

  const EMPTY_CONFIG := Config("", "", Journal("", LOG_DEBUG),
    Puncher(DEFAULT_UDP_STUN, DEFAULT_TCP_STUN, CHECKUP_STRICT, 7),
    DhtNode(DEFAULT_BOOTSTRAP, DEFAULT_DHT_PORT, 0), Emailer("", "", "", "", "", "", ""), Ricochet("", "", "", ""))

  const EMPTY_SERVICE := Service(
    false, "", "", "", DEFAULT_IP4_GATEWAY, DEFAULT_BOOTSTRAP, PROTO_ANY, ROLE_EITHER, ROUTE_DIRECT, false, true)
}

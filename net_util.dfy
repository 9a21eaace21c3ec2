/** The connection-limit table of `NetUtil`: the radio technology the
    telephony service reports is classified into a network generation, and
    the generation (or a connected wifi) gives how many connections may be
    open at once.  Whether wifi is connected and which technology the
    telephony service reports are inputs here. */
module NetUtil {
  /** `NetUtil.NetType` */
  datatype NetType = Net2G | Net2_5G | Net3G | Net3_5G | Net4G

  /** The `TelephonyManager.NETWORK_TYPE_*` codes the switch names, and any
      other code. */
  datatype TelephonyType =
    | Unknown | Cdma | Gprs | Iden
    | Edge
    | Umts | OneXRtt
    | Ehrpd | Evdo0 | EvdoA | EvdoB | Hspa | Hspap | Hsupa | Hsdpa
    | Lte
    | Other(code: int)

  const MAX_NUMBER_OF_WIFI_NET_CONNECTIONS: int := 6
  const MAX_NUMBER_OF_3G_NET_CONNECTIONS: int := 4
  const MAX_NUMBER_OF_2G_NET_CONNECTIONS: int := 2

  /** `getNetworkType()`.  The first group returns `NetType.NET_2_5G.NET_2G`,
      a static member reached through an enum constant, which is `NET_2G`. */
  function GetNetworkType(t: TelephonyType): NetType {
    match t
    case Unknown | Cdma | Gprs | Iden => Net2G
    case Edge => Net2_5G
    case Ehrpd | Evdo0 | EvdoA | EvdoB | Hspa | Hspap | Hsupa | Hsdpa => Net3_5G
    case Lte => Net4G
    case _ => Net3G
  }

  /** `getMaxNumberOfNetConnections()`, with `isWifi()` as `wifi` */
  function GetMaxNumberOfNetConnections(wifi: bool, t: TelephonyType): (r: int)
    ensures r == 2 || r == 4 || r == 6
    ensures wifi ==> r == MAX_NUMBER_OF_WIFI_NET_CONNECTIONS
    ensures !wifi ==> r != MAX_NUMBER_OF_WIFI_NET_CONNECTIONS
  {
    if wifi then MAX_NUMBER_OF_WIFI_NET_CONNECTIONS
    else match GetNetworkType(t)
      case Net2G | Net2_5G => MAX_NUMBER_OF_2G_NET_CONNECTIONS
      case _ => MAX_NUMBER_OF_3G_NET_CONNECTIONS
  }

  predicate IsSecondGeneration(t: TelephonyType) {
    t.Unknown? || t.Cdma? || t.Gprs? || t.Iden? || t.Edge?
  }

  predicate IsThreeAndAHalfGeneration(t: TelephonyType) {
    t.Ehrpd? || t.Evdo0? || t.EvdoA? || t.EvdoB? || t.Hspa? || t.Hspap? || t.Hsupa? || t.Hsdpa?
  }

  /** The classification, each generation with exactly its technologies:
      UMTS, 1xRTT and every code the switch does not list are 3G. */
  lemma NetworkTypeClasses(t: TelephonyType)
    ensures GetNetworkType(t) == Net2G <==> t.Unknown? || t.Cdma? || t.Gprs? || t.Iden?
    ensures GetNetworkType(t) == Net2_5G <==> t.Edge?
    ensures GetNetworkType(t) == Net3_5G <==> IsThreeAndAHalfGeneration(t)
    ensures GetNetworkType(t) == Net4G <==> t.Lte?
    ensures GetNetworkType(t) == Net3G <==> t.Umts? || t.OneXRtt? || t.Other?
  {
  }

  /** Off wifi the generation decides: 2G and 2.5G allow 2, the later ones
      4. */
  lemma LimitOffWifiByGeneration(t: TelephonyType)
    ensures var n := GetNetworkType(t);
            GetMaxNumberOfNetConnections(false, t) == (if n == Net2G || n == Net2_5G then 2 else 4)
  {
  }

  /** Off wifi the limit is 2 exactly for the second-generation technologies
      and 4 for every other one; wifi always allows 6. */
  lemma LimitByTechnology(wifi: bool, t: TelephonyType)
    ensures GetMaxNumberOfNetConnections(wifi, t) == (if wifi then 6 else if IsSecondGeneration(t) then 2 else 4)
  {
  }

  /** A connected wifi allows more connections than the radio, whatever the
      telephony type. */
  lemma WifiAllowsMost(t: TelephonyType)
    ensures GetMaxNumberOfNetConnections(true, t) > GetMaxNumberOfNetConnections(false, t)
  {
  }
}

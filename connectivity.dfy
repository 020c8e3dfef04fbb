/**
 * The connectivity test the screen runs before loading and after a page comes
 * back empty: is there an active network whose capabilities include a
 * transport that can reach the site?
 */
module Connectivity {
  import opened Wrappers

  /** The transports a network's capabilities can report (`NetworkCapabilities.TRANSPORT_*`). */
  datatype Transport =
    | Wifi
    | Cellular
    | Ethernet
    | Bluetooth
    | Vpn
    | WifiAware
    | Lowpan
    | Usb
    | Thread
    | Satellite

  /**
   * The active network as the connectivity service reports it: its
   * capabilities are absent when the service has none for it.
   */
  datatype ActiveNetwork = ActiveNetwork(capabilities: Option<set<Transport>>)

  /** The transports the screen accepts as a working connection. */
  const InternetTransports: set<Transport> := {Wifi, Cellular, Ethernet}

  /**
   * The screen's network check. `network` is the active network, absent when
   * there is none. The transports are tested in the order `isNetworkAvailable`
   * checks them: Wi-Fi, then cellular, then Ethernet.
   */
  predicate IsNetworkAvailable(network: Option<ActiveNetwork>)
    ensures IsNetworkAvailable(network) <==>
      network.Some? && network.value.capabilities.Some? &&
      exists t :: t in network.value.capabilities.value && t in InternetTransports
  {
    match network
    case None => false
    case Some(active) =>
      match active.capabilities
      case None => false
      case Some(transports) =>
        if Wifi in transports then true
        else if Cellular in transports then true
        else if Ethernet in transports then true
        else false
  }

  /** Gaining a transport never makes the network unavailable. */
  lemma AvailabilityIsMonotone(fewer: set<Transport>, more: set<Transport>)
    requires fewer <= more
    requires IsNetworkAvailable(Some(ActiveNetwork(Some(fewer))))
    ensures IsNetworkAvailable(Some(ActiveNetwork(Some(more))))
  {
    var t :| t in fewer && t in InternetTransports;
    assert t in more;
  }

  /**
   * A network whose only transports are outside Wi-Fi, cellular and Ethernet
   * (a VPN alone, Bluetooth, USB, ...) counts as no connection.
   */
  lemma OtherTransportsAloneAreUnavailable(transports: set<Transport>)
    requires forall t :: t in transports ==> t !in InternetTransports
    ensures !IsNetworkAvailable(Some(ActiveNetwork(Some(transports))))
  {
  }
}

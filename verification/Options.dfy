/** config/option.go: the user options the compiler reads, the tags it emits, and the outside world it asks. */
module Options {
  import opened Wrappers
  import opened Rules

  const DNS_REMOTE_TAG := "dns-remote"
  const DNS_LOCAL_TAG := "dns-local"
  const DNS_DIRECT_TAG := "dns-direct"
  const DNS_BLOCK_TAG := "dns-block"
  const DNS_FAKE_TAG := "dns-fake"
  const DNS_TRICKS_DIRECT_TAG := "dns-trick-direct"

  const DIRECT_TAG := "direct"
  const BYPASS_TAG := "bypass"
  const BLOCK_TAG := "block"
  const SELECT_TAG := "select"
  const URL_TEST_TAG := "auto"
  const DNS_OUT_TAG := "dns-out"
  const DIRECT_FRAGMENT_TAG := "direct-fragment"
  const WARP_TAG := "Hiddify Warp \U{2705}"

  const TUN_INBOUND_TAG := "tun-in"
  const MIXED_INBOUND_TAG := "mixed-in"
  const DNS_INBOUND_TAG := "dns-in"

  type Byte = n: int | 0 <= n < 256

  /** config.WarpWireguardConfig; clientId holds the bytes decoded from the client id. */
  datatype WarpKeys = WarpKeys(privateKey: string, peerPublicKey: string, localIpv4: string, localIpv6: string,
                               clientId: seq<Byte>)

  datatype WarpOptions = WarpOptions(enable: bool, mode: string, keys: WarpKeys, fakePackets: string,
                                     fakePacketSize: string, fakePacketDelay: string, fakePacketMode: string,
                                     cleanIp: string, cleanPort: nat)

  datatype ConfigOptions = ConfigOptions(
    region: string, blockAds: bool, rules: seq<Rule>, warp: WarpOptions, warp2: WarpOptions,
    remoteDnsAddress: string, directDnsAddress: string, connectionTestUrl: string,
    enableFakeDns: bool, enableDnsRouting: bool, enableTun: bool, bypassLan: bool)

  /** Library answers that do not change while one configuration is built: whether a text is an IP address
      (net.ParseIP) or an address prefix (netip.ParsePrefix), and the host of a URL (url.Parse), if it parses. */
  datatype Env = Env(isIp: string -> bool, isPrefix: string -> bool, urlHost: string -> Option<string>)
}

/**
 The command programs of internal/iptables/iptables.go and of
 src/module/scripts/net_clean.sh, as data. The methods that issue their commands
 one by one are in Iptables.
 */
module Firewall {
  import opened Common
  import opened Netfilter
  import opened Footprints

  /** `bypass` lists the parsed SSH endpoint addresses; None is an entry blank after trimming. */
  type BypassList = seq<Option<nat>>

  datatype Config = Config(
    chainsPrefix: string,
    tcpPort: int,
    apiPort: int,
    socksPort: int,
    dnsForwardPort: int,
    hotspot: bool,
    hotspotIfaces: seq<string>)

  const DEFAULT_PREFIX := "SSHC"
  const DEFAULT_IFACES := ["wlan+", "swlan+", "ap+", "rndis+", "ncm+", "bt-pan+"]

  function Prefix(cfg: Config): string {
    if cfg.chainsPrefix == "" then DEFAULT_PREFIX else cfg.chainsPrefix
  }

  function Port(cfg: Config): int {
    if cfg.tcpPort <= 0 then 10810 else cfg.tcpPort
  }

  function Ifaces(cfg: Config): seq<string> {
    if |cfg.hotspotIfaces| == 0 then DEFAULT_IFACES else cfg.hotspotIfaces
  }

  // ----- chains -----

  function NatChain(name: string): ChainId {
    ChainId(V4, Nat, name)
  }

  const NAT_OUTPUT := NatChain("OUTPUT")
  const NAT_PREROUTING := NatChain("PREROUTING")
  const FILTER_OUTPUT := ChainId(V4, Filter, "OUTPUT")
  const FILTER_FORWARD := ChainId(V4, Filter, "FORWARD")
  const OUTPUT6 := ChainId(V6, Filter, "OUTPUT")
  const FORWARD6 := ChainId(V6, Filter, "FORWARD")
  const DROP6_NAME := "SSHC_DROP6"
  const DROP6 := ChainId(V6, Filter, DROP6_NAME)

  /** The built-in chains the programs hook into; the kernel always has them. */
  const BUILTINS: set<ChainId> :=
    {NAT_OUTPUT, NAT_PREROUTING, FILTER_OUTPUT, FILTER_FORWARD, OUTPUT6, FORWARD6}

  function OutName(prefix: string): string { prefix + "_OUTPUT" }
  function PreName(prefix: string): string { prefix + "_PREROUTING" }
  function DnsName(prefix: string): string { prefix + "_DNS" }

  function LegacyNames(prefix: string): seq<string> {
    [OutName(prefix), PreName(prefix), prefix + "_PROXY", DnsName(prefix), prefix + "_HOTSPOT", prefix + "_HOTSPOT_DNS"]
  }

  function ChainsOf(f: Family, t: Table, names: seq<string>): (ids: seq<ChainId>)
    ensures |ids| == |names|
    ensures forall i :: 0 <= i < |names| ==> ids[i] == ChainId(f, t, names[i])
  {
    if names == [] then [] else [ChainId(f, t, names[0])] + ChainsOf(f, t, names[1..])
  }

  // ----- rules -----

  function AnyJump(ch: string): Rule { Plain(Jump(ch)) }
  function TcpJump(ch: string): Rule { Rule(Some(Tcp), None, None, None, None, None, None, Jump(ch)) }
  function DnsJump(ch: string): Rule { Rule(Some(Udp), None, Some(53), None, None, None, None, Jump(ch)) }
  function IfaceTcpJump(iface: string, ch: string): Rule { Rule(Some(Tcp), None, None, None, Some(iface), None, None, Jump(ch)) }
  function IfaceJump(iface: string, ch: string): Rule { Rule(None, None, None, None, Some(iface), None, None, Jump(ch)) }

  function RootReturn(): Rule { Rule(None, None, None, Some(0), None, None, None, Return) }
  function DstReturn(c: Cidr): Rule { Rule(None, Some(c), None, None, None, None, None, Return) }
  function PortReturn(p: int): Rule { Rule(Some(Tcp), None, Some(p), None, None, None, None, Return) }
  function RedirectTo(p: int): Rule { Rule(Some(Tcp), None, None, None, None, None, None, Redirect(p)) }
  function DnsDnat(p: int): Rule { Rule(Some(Udp), None, Some(53), None, None, None, None, Dnat(LOOPBACK, p)) }
  function QuicRule(p: int, t: Target): Rule { Rule(Some(Udp), None, Some(p), None, None, None, None, t) }
  function QuicReject(p: int): Rule { QuicRule(p, Reject("icmp-port-unreachable")) }
  function QuicDrop(p: int): Rule { QuicRule(p, Drop) }
  function LoopbackReturn(): Rule { Rule(None, None, None, None, None, Some("lo"), None, Return) }
  function Reject6(): Rule { Plain(Reject("icmp6-adm-prohibited")) }

  /** 127.0.0.1 */
  const LOOPBACK: nat := 0x7F00_0001

  /** The nine reserved ranges, in the order in which they are exempted. */
  function PrivateCidr(i: nat): Cidr
    requires i < 9
  {
    if i == 0 then Cidr(0x0000_0000, 8)        // 0.0.0.0/8
    else if i == 1 then Cidr(0x0A00_0000, 8)   // 10.0.0.0/8
    else if i == 2 then Cidr(0x6440_0000, 10)  // 100.64.0.0/10
    else if i == 3 then Cidr(0x7F00_0000, 8)   // 127.0.0.0/8
    else if i == 4 then Cidr(0xA9FE_0000, 16)  // 169.254.0.0/16
    else if i == 5 then Cidr(0xAC10_0000, 12)  // 172.16.0.0/12
    else if i == 6 then Cidr(0xC0A8_0000, 16)  // 192.168.0.0/16
    else if i == 7 then Cidr(0xE000_0000, 4)   // 224.0.0.0/4
    else Cidr(0xF000_0000, 4)                  // 240.0.0.0/4
  }

  function PrivateCidrs(): seq<Cidr> {
    seq(9, i requires 0 <= i < 9 => PrivateCidr(i))
  }

  function CidrReturns(cs: seq<Cidr>): seq<Rule> {
    if cs == [] then [] else [DstReturn(cs[0])] + CidrReturns(cs[1..])
  }

  function BypassReturns(bypass: BypassList): seq<Rule> {
    if bypass == [] then []
    else (if bypass[0].Some? then [DstReturn(Cidr(bypass[0].value, 32))] else []) + BypassReturns(bypass[1..])
  }

  function PortReturns(ports: seq<int>): seq<Rule> {
    if ports == [] then []
    else (if ports[0] > 0 then [PortReturn(ports[0])] else []) + PortReturns(ports[1..])
  }

  function ExemptPorts(cfg: Config): seq<int> {
    [cfg.apiPort, cfg.socksPort, cfg.tcpPort, cfg.dnsForwardPort]
  }

  function RulesFor(isOutput: bool, cidrs: seq<Cidr>, bypass: BypassList, ports: seq<int>, redirect: int): seq<Rule> {
    (if isOutput then [RootReturn()] else [])
    + CidrReturns(cidrs) + BypassReturns(bypass) + PortReturns(ports) + [RedirectTo(redirect)]
  }

  /** What addBypasses puts into a chain. */
  function ChainRules(cfg: Config, bypass: BypassList, isOutput: bool): seq<Rule> {
    RulesFor(isOutput, PrivateCidrs(), bypass, ExemptPorts(cfg), Port(cfg))
  }

  // ----- cleanup programs -----

  function IfaceDeletes(ifaces: seq<string>, at: ChainId, ch: string): Program {
    if ifaces == [] then []
    else
      (if Blank(ifaces[0]) then [] else
         [Best(Delete(at, IfaceTcpJump(ifaces[0], ch))), Best(Delete(at, IfaceJump(ifaces[0], ch)))])
      + IfaceDeletes(ifaces[1..], at, ch)
  }

  function FixedDeletes(ch: string): Program {
    [Best(Delete(NAT_OUTPUT, TcpJump(ch))),
     Best(Delete(NAT_OUTPUT, AnyJump(ch))),
     Best(Delete(NAT_OUTPUT, DnsJump(ch))),
     Best(Delete(NAT_PREROUTING, TcpJump(ch))),
     Best(Delete(NAT_PREROUTING, AnyJump(ch)))]
  }

  function HookDeletes(names: seq<string>, ifaces: seq<string>): Program {
    if names == [] then []
    else FixedDeletes(names[0]) + IfaceDeletes(ifaces, NAT_PREROUTING, names[0]) + HookDeletes(names[1..], ifaces)
  }

  function QuicDeletes(): Program {
    [WhileOk(Delete(FILTER_OUTPUT, QuicDrop(443)), 4),
     WhileOk(Delete(FILTER_OUTPUT, QuicReject(443)), 4),
     WhileOk(Delete(FILTER_OUTPUT, QuicDrop(80)), 4),
     WhileOk(Delete(FILTER_OUTPUT, QuicReject(80)), 4)]
  }

  function ForwardDelete(): Program {
    [Best(Delete(FILTER_FORWARD, Plain(Accept)))]
  }

  function NatPhase(prefix: string, ifaces: seq<string>): Phase {
    Phase(HookDeletes(LegacyNames(prefix), ifaces), ChainsOf(V4, Nat, LegacyNames(prefix)))
  }

  function FilterPhase(): Phase {
    Phase(ForwardDelete() + QuicDeletes(), [])
  }

  function RulesPhases(cfg: Config): seq<Phase> {
    [NatPhase(Prefix(cfg), Ifaces(cfg)), FilterPhase()]
  }

  function EnableIPv6Phase(): Phase {
    Phase([Best(Delete(OUTPUT6, AnyJump(DROP6_NAME))), Best(Delete(FORWARD6, AnyJump(DROP6_NAME)))], [DROP6])
  }

  function CleanupPhases(cfg: Config): seq<Phase> {
    [NatPhase(Prefix(cfg), Ifaces(cfg)), FilterPhase(), EnableIPv6Phase()]
  }

  // ----- the Apply program -----

  function Appends(id: ChainId, rules: seq<Rule>): Program {
    if rules == [] then [] else [Must(Append(id, rules[0]))] + Appends(id, rules[1..])
  }

  function IfaceInserts(ifaces: seq<string>, ch: string): Program {
    if ifaces == [] then []
    else (if Blank(ifaces[0]) then [] else [Must(Insert(NAT_PREROUTING, IfaceTcpJump(ifaces[0], ch)))])
         + IfaceInserts(ifaces[1..], ch)
  }

  function MakeChains(prefix: string): Program {
    [Must(New(NatChain(OutName(prefix)))), Must(Flush(NatChain(OutName(prefix)))),
     Must(New(NatChain(PreName(prefix)))), Must(Flush(NatChain(PreName(prefix))))]
  }

  function ChainsProgram(cfg: Config, bypass: BypassList): Program {
    MakeChains(Prefix(cfg))
    + Appends(NatChain(OutName(Prefix(cfg))), ChainRules(cfg, bypass, true))
    + Appends(NatChain(PreName(Prefix(cfg))), ChainRules(cfg, bypass, false))
  }

  function HooksProgram(cfg: Config): Program {
    [Must(Insert(NAT_OUTPUT, TcpJump(OutName(Prefix(cfg)))))]
    + (if cfg.hotspot then IfaceInserts(Ifaces(cfg), PreName(Prefix(cfg))) else [])
  }

  /** The commands whose errors Apply records. */
  function RedirectProgram(cfg: Config, bypass: BypassList): Program {
    ChainsProgram(cfg, bypass) + HooksProgram(cfg)
  }

  function DnsProgram(prefix: string, port: int): Program {
    if port <= 0 then []
    else
      var chain := NatChain(DnsName(prefix));
      [FirstOk([List(chain), New(chain)]),
       Best(Flush(chain)),
       Best(Append(chain, RootReturn())),
       Best(Append(chain, DnsDnat(port))),
       Best(Delete(NAT_OUTPUT, DnsJump(DnsName(prefix)))),
       Best(Insert(NAT_OUTPUT, DnsJump(DnsName(prefix))))]
  }

  function QuicCommands(p: int): seq<Command> {
    [Check(FILTER_OUTPUT, QuicReject(p)), Append(FILTER_OUTPUT, QuicReject(p)),
     Check(FILTER_OUTPUT, QuicDrop(p)), Append(FILTER_OUTPUT, QuicDrop(p))]
  }

  function QuicProgram(): Program {
    [FirstOk(QuicCommands(443)), FirstOk(QuicCommands(80))]
  }

  function IPv6Program(): Program {
    [FirstOk([List(DROP6), New(DROP6)]),
     Best(Flush(DROP6)),
     Best(Append(DROP6, LoopbackReturn())),
     FirstOk([Append(DROP6, Reject6()), Append(DROP6, Plain(Drop))]),
     Best(Delete(OUTPUT6, AnyJump(DROP6_NAME))),
     Best(Insert(OUTPUT6, AnyJump(DROP6_NAME))),
     Best(Delete(FORWARD6, AnyJump(DROP6_NAME))),
     Best(Insert(FORWARD6, AnyJump(DROP6_NAME)))]
  }

  function ForwardAccept(cfg: Config): Program {
    if cfg.hotspot then [Best(Insert(FILTER_FORWARD, Plain(Accept)))] else []
  }

  /** The commands whose errors Apply ignores. */
  function BestEffortProgram(cfg: Config): Program {
    ForwardAccept(cfg) + DnsProgram(Prefix(cfg), cfg.dnsForwardPort) + QuicProgram() + IPv6Program()
  }

  function ApplyProgram(cfg: Config, bypass: BypassList): Program {
    CleanerProgram(RulesPhases(cfg)) + RedirectProgram(cfg, bypass) + BestEffortProgram(cfg)
  }

  function CleanupProgram(cfg: Config): Program {
    CleanerProgram(CleanupPhases(cfg))
  }

  /** The error texts that Apply filters out of its result. */
  predicate Swallowed(e: Error) {
    e.NoSuchChain? || e.NoSuchRule? || e.ChainExists?
  }

  function Fatal(errs: seq<Error>): seq<Error> {
    if errs == [] then []
    else (if Swallowed(errs[0]) then [] else [errs[0]]) + Fatal(errs[1..])
  }

  // ----- net_clean.sh -----

  function ScriptFixedDeletes6(ch: string): Program {
    [Best(Delete(OUTPUT6, AnyJump(ch))),
     Best(Delete(FORWARD6, AnyJump(ch))),
     Best(Delete(ChainId(V6, Nat, "OUTPUT"), TcpJump(ch))),
     Best(Delete(ChainId(V6, Nat, "OUTPUT"), AnyJump(ch))),
     Best(Delete(ChainId(V6, Nat, "PREROUTING"), TcpJump(ch))),
     Best(Delete(ChainId(V6, Nat, "PREROUTING"), AnyJump(ch)))]
  }

  function ScriptDeletes6(names: seq<string>, ifaces: seq<string>): Program {
    if names == [] then []
    else ScriptFixedDeletes6(names[0]) + IfaceDeletes(ifaces, ChainId(V6, Nat, "PREROUTING"), names[0])
         + ScriptDeletes6(names[1..], ifaces)
  }

  function ScriptChains6(names: seq<string>): seq<ChainId> {
    if names == [] then []
    else [ChainId(V6, Nat, names[0]), ChainId(V6, Filter, names[0])] + ScriptChains6(names[1..])
  }

  const SCRIPT_NAMES6: seq<string> := LegacyNames(DEFAULT_PREFIX) + [DROP6_NAME]

  /** clean_v4, clean_v6, clean_quic, in that order. */
  function ScriptPhasesFor(prefix: string, ifaces: seq<string>, names6: seq<string>): seq<Phase> {
    [NatPhase(prefix, ifaces),
     Phase(ForwardDelete() + ScriptDeletes6(names6, ifaces), ScriptChains6(names6)),
     Phase(QuicDeletes(), [])]
  }

  function ScriptPhases(): seq<Phase> {
    ScriptPhasesFor(DEFAULT_PREFIX, DEFAULT_IFACES, SCRIPT_NAMES6)
  }
}

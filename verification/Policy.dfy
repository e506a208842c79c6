/** How the policies of the host, the workspace, the agent, the snapshot and the environment narrow each other. */
module Policy {
  import opened Domain

  type Host = nat

  datatype Egress = CloudAllowed | DomainAllowlist | LocalOnly

  /** Capabilities that the environment may take away have names of their own. */
  datatype Power = Network | ProcessPower | WriteFiles | Other(id: nat)

  /** The platform fields are absent until the environment sets them. */
  datatype Policy = Policy(
    capabilities: set<Power>, approvals: set<nat>, trusted: bool, egress: Egress, domains: set<Host>,
    network: Option<bool>, process: Option<bool>, hosts: Option<set<Host>>)

  /** The environment's permissions; an empty host list does not restrict. */
  datatype Cap = Cap(network: bool, process: bool, write: bool, hosts: set<Host>)

  // ---------------------------------------------------------------- what a policy allows

  /** What the policy's own egress rule says of a host that is not local. */
  predicate LetsOut(p: Policy, h: Host) {
    !p.egress.LocalOnly? && (p.egress.DomainAllowlist? ==> h in p.domains)
  }

  predicate NetworkOn(p: Policy) {
    p.network.Some? ==> p.network.value
  }

  predicate HostListed(p: Policy, h: Host) {
    p.hosts.Some? ==> h in p.hosts.value
  }

  /** `endpoint`, for a host that is not local. */
  predicate AllowsHost(p: Policy, h: Host) {
    NetworkOn(p) && HostListed(p, h) && LetsOut(p, h)
  }

  predicate NeedsApproval(p: Policy, effect: nat) {
    effect in p.approvals
  }

  predicate TrustsProcess(p: Policy) {
    p.trusted
  }

  // ---------------------------------------------------------------- the combinations

  /** The egress of two policies: local beats a list, a list beats the cloud, two lists intersect. */
  function Combined(base: Policy, other: Policy): Policy {
    if base.egress.LocalOnly? || other.egress.LocalOnly? then base.(egress := LocalOnly)
    else if base.egress.DomainAllowlist? || other.egress.DomainAllowlist? then
      base.(egress := DomainAllowlist,
            domains := if base.egress.DomainAllowlist? && other.egress.DomainAllowlist?
                       then base.domains * other.domains
                       else if base.egress.DomainAllowlist? then base.domains else other.domains)
    else base
  }

  /** `_environment_cap`. */
  function Capped(p: Policy, cap: Option<Cap>): Policy {
    if cap.None? then p
    else
      var c := cap.value;
      p.(capabilities := p.capabilities - (if c.network then {} else {Network})
                         - (if c.process then {} else {ProcessPower}) - (if c.write then {} else {WriteFiles}),
         trusted := p.trusted && c.process, network := Some(c.network), process := Some(c.process),
         hosts := if c.hosts == {} then p.hosts
                  else Some(if p.egress.DomainAllowlist? then c.hosts * p.domains else c.hosts))
  }

  /** `current`: the workspace's policy under the host's, then the environment. */
  function Current(host: Policy, workspace: Option<Policy>, cap: Option<Cap>): Policy {
    if workspace.None? then Capped(host, cap)
    else
      var w := workspace.value;
      Capped(Combined(w.(capabilities := w.capabilities * host.capabilities, approvals := w.approvals + host.approvals,
                         trusted := w.trusted && host.trusted), host), cap)
  }

  /** `for_agent`. */
  function ForAgent(base: Policy, named: Option<Policy>): Policy {
    if named.None? then base
    else
      var n := named.value;
      Combined(base.(capabilities := base.capabilities * n.capabilities, approvals := base.approvals + n.approvals,
                     trusted := base.trusted && n.trusted), n)
  }

  function Both(x: Option<bool>, y: Option<bool>): bool {
    (x.Some? ==> x.value) && (y.Some? ==> y.value)
  }

  function BothHosts(x: Option<set<Host>>, y: Option<set<Host>>): Option<set<Host>> {
    if x.Some? && y.Some? then Some(x.value * y.value) else if x.Some? then x else y
  }

  /** `effective`: the policy now, under the one frozen with the run; `limits` are the mode's and the agent's own. */
  function Effective(current: Policy, frozen: Policy, limits: seq<set<Power>>): Policy {
    var combined := Combined(current, frozen);
    combined.(capabilities := Limited(current.capabilities * frozen.capabilities, limits),
              approvals := current.approvals + frozen.approvals, trusted := current.trusted && frozen.trusted,
              network := Some(Both(current.network, frozen.network)),
              process := Some(Both(current.process, frozen.process)),
              hosts := BothHosts(current.hosts, frozen.hosts))
  }

  function Limited(s: set<Power>, limits: seq<set<Power>>): set<Power>
    decreases |limits|
  {
    if limits == [] then s else Limited(s * limits[0], limits[1..])
  }

  // ---------------------------------------------------------------- they only narrow

  lemma {:induction false} LimitedIs(s: set<Power>, limits: seq<set<Power>>, x: Power)
    ensures x in Limited(s, limits) <==> x in s && forall i :: 0 <= i < |limits| ==> x in limits[i]
    decreases |limits|
  {
    if limits != [] {
      LimitedIs(s * limits[0], limits[1..], x);
      assert forall i :: 0 <= i < |limits[1..]| ==> limits[1..][i] == limits[i + 1];
      assert (forall i :: 0 <= i < |limits| ==> x in limits[i])
        <==> x in limits[0] && forall i :: 0 <= i < |limits[1..]| ==> x in limits[1..][i];
    }
  }

  /** A run may use a capability, or reach a host that is not local, exactly when both the present policy and the one
      frozen with it allow this; it asks for approval when either would. */
  lemma EffectiveIsTheMeet(current: Policy, frozen: Policy, limits: seq<set<Power>>, h: Host, x: Power, effect: nat)
    ensures var e := Effective(current, frozen, limits);
            && (AllowsHost(e, h) <==> AllowsHost(current, h) && AllowsHost(frozen, h))
            && (x in e.capabilities <==> x in current.capabilities && x in frozen.capabilities
                                         && forall i :: 0 <= i < |limits| ==> x in limits[i])
            && (NeedsApproval(e, effect) <==> NeedsApproval(current, effect) || NeedsApproval(frozen, effect))
            && (TrustsProcess(e) <==> TrustsProcess(current) && TrustsProcess(frozen))
  {
    LimitedIs(current.capabilities * frozen.capabilities, limits, x);
  }

  /** The platform's restriction: the environment's, and where it has none, that of the policy it caps. */
  predicate PlatformAllows(cap: Option<Cap>, p: Policy, h: Host) {
    && (if cap.Some? then cap.value.network else NetworkOn(p))
    && (if cap.Some? && cap.value.hosts != {} then h in cap.value.hosts else HostListed(p, h))
  }

  /** The environment's own restriction, as far as powers go. */
  predicate CapKeeps(cap: Option<Cap>, x: Power) {
    cap.Some? ==>
      && (x.Network? ==> cap.value.network) && (x.ProcessPower? ==> cap.value.process)
      && (x.WriteFiles? ==> cap.value.write)
  }

  /** The present policy allows what the host, the workspace and the environment each allow, and nothing else.
      Platform fields that a stored policy carries itself count only where the environment says nothing, and the
      host's own only without a workspace. */
  lemma CurrentIsTheMeet(host: Policy, workspace: Option<Policy>, cap: Option<Cap>, h: Host, x: Power, effect: nat)
    ensures var c := Current(host, workspace, cap);
            && (AllowsHost(c, h) <==>
                  && LetsOut(host, h) && (workspace.Some? ==> LetsOut(workspace.value, h))
                  && PlatformAllows(cap, if workspace.Some? then workspace.value else host, h))
            && (x in c.capabilities <==>
                  x in host.capabilities && (workspace.Some? ==> x in workspace.value.capabilities) && CapKeeps(cap, x))
            && (NeedsApproval(c, effect) <==>
                  NeedsApproval(host, effect) || (workspace.Some? && NeedsApproval(workspace.value, effect)))
            && (TrustsProcess(c) <==>
                  && TrustsProcess(host) && (workspace.Some? ==> TrustsProcess(workspace.value))
                  && CapKeeps(cap, ProcessPower))
  {}

  /** An agent's policy narrows what it is given; its own platform fields do not count. */
  lemma AgentNarrows(base: Policy, named: Option<Policy>, h: Host, x: Power, effect: nat)
    ensures var a := ForAgent(base, named);
            && (AllowsHost(a, h) <==> AllowsHost(base, h) && (named.Some? ==> LetsOut(named.value, h)))
            && (x in a.capabilities <==> x in base.capabilities && (named.Some? ==> x in named.value.capabilities))
            && (NeedsApproval(a, effect) <==>
                  NeedsApproval(base, effect) || (named.Some? && NeedsApproval(named.value, effect)))
            && (TrustsProcess(a) <==> TrustsProcess(base) && (named.Some? ==> TrustsProcess(named.value)))
  {}

  /** A child is frozen with capabilities its parent's effective policy allowed, so whatever changes later, what it
      may do lies within what its parent was frozen with. */
  lemma ChildWithinParent(now: Policy, parent: Policy, granted: set<Power>, later: Policy, limits: seq<set<Power>>,
                          childLimits: seq<set<Power>>, x: Power)
    requires granted <= Effective(now, parent, limits).capabilities
    ensures var child := parent.(capabilities := granted);
            x in Effective(later, child, childLimits).capabilities ==>
              x in parent.capabilities && x in later.capabilities
  {
    LimitedIs(now.capabilities * parent.capabilities, limits, x);
    LimitedIs(later.capabilities * granted, childLimits, x);
  }
}

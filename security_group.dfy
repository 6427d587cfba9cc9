/**
  Security-group rule reconciliation (awsomeutils/security_group.py).

  `update_security_group` reads the group's ingress permissions, keeps the CIDRs of the
  permissions whose FromPort and IpProtocol equal the requested pair, revokes
  `current - desired` and then authorizes `desired - current`, one address family at a time.

  The EC2 group is a `Group` object holding the permission list the service reports.
  Authorizing appends the sent permission; revoking strips the sent CIDRs from every permission
  with the same FromPort and IpProtocol. The abstract rule of a (port, protocol) pair is the pair
  of address SETS that `RuleOf` (the specification of `_get_rule`) collects from that list.
*/
module SecurityGroup {
  import opened Wrappers

  type Cidr = string

  /** One ingress permission as the service reports it; keys it may lack are `None` or empty. */
  datatype IpPermission = IpPermission(
    fromPort: Option<int>,
    toPort: Option<int>,
    ipProtocol: Option<string>,
    ipRanges: seq<Cidr>,
    ipv6Ranges: seq<Cidr>,
    prefixListIds: seq<string>,
    userIdGroupPairs: seq<string>)

  /** The mapping with keys 'allowed_ipv4_addresses' and 'allowed_ipv6_addresses'. */
  datatype Addresses = Addresses(ipv4: seq<Cidr>, ipv6: seq<Cidr>)

  /** The abstract value of a rule: one set of CIDRs per address family. */
  datatype AddressSets = AddressSets(ipv4: set<Cidr>, ipv6: set<Cidr>)

  datatype Action = Authorize | Revoke

  /** A call issued to the security-group service, with its `IpPermissions` argument. */
  datatype Call = AuthorizeCall(permissions: seq<IpPermission>) | RevokeCall(permissions: seq<IpPermission>)

  /** The mapping `update_security_group` returns. */
  datatype UpdateResult = UpdateResult(
    port: int,
    protocol: string,
    revokedIpv4: seq<Cidr>,
    authorizedIpv4: seq<Cidr>,
    revokedIpv6: seq<Cidr>,
    authorizedIpv6: seq<Cidr>)

  function Elems<T>(s: seq<T>): set<T> {
    set x | x in s
  }

  predicate Distinct<T(==)>(s: seq<T>) {
    forall i, j :: 0 <= i < j < |s| ==> s[i] != s[j]
  }

  function Sets(a: Addresses): AddressSets {
    AddressSets(Elems(a.ipv4), Elems(a.ipv6))
  }

  lemma ElemsConcat<T>(a: seq<T>, b: seq<T>)
    ensures Elems(a + b) == Elems(a) + Elems(b)
  {
    assert forall x :: x in a + b <==> x in a || x in b;
  }

  lemma DistinctCons<T>(head: T, tail: seq<T>)
    requires head !in tail && Distinct(tail)
    ensures Distinct([head] + tail)
  {
    forall i, j | 0 <= i < j < |tail| + 1
      ensures ([head] + tail)[i] != ([head] + tail)[j]
    {
      if i > 0 {
        assert ([head] + tail)[i] == tail[i - 1];
      }
      assert ([head] + tail)[j] == tail[j - 1];
    }
  }

  lemma ElemsHead<T>(s: seq<T>)
    ensures |s| > 0 ==> s[0] in Elems(s)
    ensures |s| > 1 ==> s[1] in Elems(s)
  {
  }

  lemma EmptyElems<T>(s: seq<T>)
    requires Elems(s) == {}
    ensures s == []
  {
    ElemsHead(s);
  }

  lemma SingletonElems<T>(s: seq<T>, x: T)
    requires Distinct(s) && Elems(s) == {x}
    ensures s == [x]
  {
    ElemsHead(s);
    assert x in s;
  }

  // ---------------------------------------------------------------------------------------
  // _diff_list and _diff_addresses
  // ---------------------------------------------------------------------------------------

  /**
    `list(set(list1) - set(list2))`: the elements of `list1` that are not in `list2`, each once.
    Python leaves the order to the set; this model lists them in order of first occurrence.
  */
  function DiffList(list1: seq<Cidr>, list2: seq<Cidr>): (r: seq<Cidr>)
    ensures Elems(r) == Elems(list1) - Elems(list2)
    ensures Distinct(r)
    decreases |list1|
  {
    if list1 == [] then []
    else
      var head, tail := list1[0], list1[1..];
      assert list1 == [head] + tail;
      ElemsConcat([head], tail);
      if head in list2 then DiffList(tail, list2)
      else
        var rest := DiffList(tail, list2 + [head]);
        ElemsConcat(list2, [head]);
        ElemsConcat([head], rest);
        assert head in Elems([head]);
        assert head !in Elems(rest);
        DistinctCons(head, rest);
        [head] + rest
  }

  /** Diffs each address family against the same family of the other mapping. */
  function DiffAddresses(addresses1: Addresses, addresses2: Addresses): (r: Addresses)
    ensures Sets(r).ipv4 == Sets(addresses1).ipv4 - Sets(addresses2).ipv4
    ensures Sets(r).ipv6 == Sets(addresses1).ipv6 - Sets(addresses2).ipv6
    ensures Distinct(r.ipv4) && Distinct(r.ipv6)
  {
    Addresses(DiffList(addresses1.ipv4, addresses2.ipv4), DiffList(addresses1.ipv6, addresses2.ipv6))
  }

  /** Diffing a list against itself yields nothing. */
  lemma DiffSelf(addresses: seq<Cidr>)
    ensures DiffList(addresses, addresses) == []
  {
    EmptyElems(DiffList(addresses, addresses));
  }

  /**
    What is revoked and what is authorized never overlap, and together they are exactly the
    symmetric difference of the current and the desired rule, family by family.
  */
  lemma DiffsPartition(current: Addresses, desired: Addresses)
    ensures var revoking := Sets(DiffAddresses(current, desired));
            var authorizing := Sets(DiffAddresses(desired, current));
            var c, d := Sets(current), Sets(desired);
            && revoking.ipv4 !! authorizing.ipv4
            && revoking.ipv6 !! authorizing.ipv6
            && revoking.ipv4 + authorizing.ipv4 == (c.ipv4 - d.ipv4) + (d.ipv4 - c.ipv4)
            && revoking.ipv6 + authorizing.ipv6 == (c.ipv6 - d.ipv6) + (d.ipv6 - c.ipv6)
  {
  }

  /** Adding one new IPv4 CIDR to the desired rule authorizes that CIDR alone and revokes nothing. */
  lemma AddOneCidr(current: Addresses, desired: Addresses, cidr: Cidr)
    requires cidr !in current.ipv4
    requires Elems(desired.ipv4) == Elems(current.ipv4) + {cidr}
    requires Elems(desired.ipv6) == Elems(current.ipv6)
    ensures DiffAddresses(current, desired) == Addresses([], [])
    ensures DiffAddresses(desired, current) == Addresses([cidr], [])
  {
    var revoking, authorizing := DiffAddresses(current, desired), DiffAddresses(desired, current);
    EmptyElems(revoking.ipv4);
    EmptyElems(revoking.ipv6);
    SingletonElems(authorizing.ipv4, cidr);
    EmptyElems(authorizing.ipv6);
  }

  /** Dropping one IPv4 CIDR from the desired rule revokes that CIDR alone and authorizes nothing. */
  lemma RemoveOneCidr(current: Addresses, desired: Addresses, cidr: Cidr)
    requires cidr !in desired.ipv4
    requires Elems(current.ipv4) == Elems(desired.ipv4) + {cidr}
    requires Elems(desired.ipv6) == Elems(current.ipv6)
    ensures DiffAddresses(current, desired) == Addresses([cidr], [])
    ensures DiffAddresses(desired, current) == Addresses([], [])
  {
    var revoking, authorizing := DiffAddresses(current, desired), DiffAddresses(desired, current);
    SingletonElems(revoking.ipv4, cidr);
    EmptyElems(revoking.ipv6);
    EmptyElems(authorizing.ipv4);
    EmptyElems(authorizing.ipv6);
  }

  // ---------------------------------------------------------------------------------------
  // _get_rule
  // ---------------------------------------------------------------------------------------

  /** `ip_permission.get('FromPort') == port and ip_permission.get('IpProtocol') == protocol` */
  predicate Matches(p: IpPermission, port: int, protocol: string) {
    p.fromPort == Some(port) && p.ipProtocol == Some(protocol)
  }

  /** The CIDRs of the matching permissions, in encounter order, per family. */
  function RuleOf(permissions: seq<IpPermission>, port: int, protocol: string): Addresses
    decreases |permissions|
  {
    if permissions == [] then Addresses([], [])
    else
      var rule := RuleOf(permissions[..|permissions| - 1], port, protocol);
      var p := permissions[|permissions| - 1];
      if Matches(p, port, protocol) then Addresses(rule.ipv4 + p.ipRanges, rule.ipv6 + p.ipv6Ranges)
      else rule
  }

  /** Unfolds `RuleOf` on a list that ends in `p`. */
  lemma RuleOfSnoc(permissions: seq<IpPermission>, p: IpPermission, port: int, protocol: string)
    ensures var rule := RuleOf(permissions, port, protocol);
            RuleOf(permissions + [p], port, protocol)
              == if Matches(p, port, protocol) then Addresses(rule.ipv4 + p.ipRanges, rule.ipv6 + p.ipv6Ranges)
                 else rule
  {
    assert (permissions + [p])[..|permissions|] == permissions;
  }

  /**
    A CIDR is collected exactly when some permission matching (port, protocol) lists it in the
    same family; permissions that do not match contribute nothing.
  */
  lemma {:induction false} RuleOfCollects(permissions: seq<IpPermission>, port: int, protocol: string, cidr: Cidr)
    ensures (cidr in RuleOf(permissions, port, protocol).ipv4)
              <==> exists i :: 0 <= i < |permissions| && Matches(permissions[i], port, protocol) && cidr in permissions[i].ipRanges
    ensures (cidr in RuleOf(permissions, port, protocol).ipv6)
              <==> exists i :: 0 <= i < |permissions| && Matches(permissions[i], port, protocol) && cidr in permissions[i].ipv6Ranges
    decreases |permissions|
  {
    if permissions != [] {
      var n := |permissions| - 1;
      var init := permissions[..n];
      RuleOfCollects(init, port, protocol, cidr);
      assert permissions == init + [permissions[n]];
      RuleOfSnoc(init, permissions[n], port, protocol);
      assert forall i :: 0 <= i < n ==> permissions[i] == init[i];
    }
  }

  /** Collecting over two lists is collecting over each, in order. */
  lemma {:induction false} RuleOfAppend(a: seq<IpPermission>, b: seq<IpPermission>, port: int, protocol: string)
    ensures RuleOf(a + b, port, protocol)
              == Addresses(RuleOf(a, port, protocol).ipv4 + RuleOf(b, port, protocol).ipv4,
                           RuleOf(a, port, protocol).ipv6 + RuleOf(b, port, protocol).ipv6)
    decreases |b|
  {
    var ra := RuleOf(a, port, protocol);
    if b == [] {
      assert a + b == a;
      assert ra.ipv4 + [] == ra.ipv4 && ra.ipv6 + [] == ra.ipv6;
    } else {
      var n := |b| - 1;
      var init, p := b[..n], b[n];
      RuleOfAppend(a, init, port, protocol);
      assert a + b == (a + init) + [p];
      assert b == init + [p];
      RuleOfSnoc(a + init, p, port, protocol);
      RuleOfSnoc(init, p, port, protocol);
      if Matches(p, port, protocol) {
        var ri := RuleOf(init, port, protocol);
        assert (ra.ipv4 + ri.ipv4) + p.ipRanges == ra.ipv4 + (ri.ipv4 + p.ipRanges);
        assert (ra.ipv6 + ri.ipv6) + p.ipv6Ranges == ra.ipv6 + (ri.ipv6 + p.ipv6Ranges);
      }
    }
  }

  // ---------------------------------------------------------------------------------------
  // The security group and its two service calls
  // ---------------------------------------------------------------------------------------

  /** The permissions of `q` that have the same FromPort and IpProtocol as `p`. */
  predicate SameRule(q: IpPermission, p: IpPermission) {
    q.fromPort == p.fromPort && q.ipProtocol == p.ipProtocol
  }

  /** `ranges` with every CIDR listed in `removed` taken out, order kept. */
  function Without(ranges: seq<Cidr>, removed: seq<Cidr>): (r: seq<Cidr>)
    ensures Elems(r) == Elems(ranges) - Elems(removed)
    decreases |ranges|
  {
    if ranges == [] then []
    else
      var head, tail := ranges[0], ranges[1..];
      assert ranges == [head] + tail;
      ElemsConcat([head], tail);
      var kept := if head in removed then [] else [head];
      var rest := Without(tail, removed);
      ElemsConcat(kept, rest);
      kept + rest
  }

  lemma {:induction false} WithoutAppend(a: seq<Cidr>, b: seq<Cidr>, removed: seq<Cidr>)
    ensures Without(a + b, removed) == Without(a, removed) + Without(b, removed)
    decreases |a|
  {
    if a != [] {
      assert (a + b)[1..] == a[1..] + b;
      WithoutAppend(a[1..], b, removed);
    } else {
      assert a + b == b;
    }
  }

  function RevokedFrom(q: IpPermission, p: IpPermission): IpPermission {
    if SameRule(q, p) then q.(ipRanges := Without(q.ipRanges, p.ipRanges), ipv6Ranges := Without(q.ipv6Ranges, p.ipv6Ranges))
    else q
  }

  /** The permission list after revoking the CIDRs of one permission. */
  function RevokeOne(permissions: seq<IpPermission>, p: IpPermission): seq<IpPermission>
    decreases |permissions|
  {
    if permissions == [] then []
    else RevokeOne(permissions[..|permissions| - 1], p) + [RevokedFrom(permissions[|permissions| - 1], p)]
  }

  /** The permission list after revoking every permission of `sent`, first to last. */
  function RevokeAll(permissions: seq<IpPermission>, sent: seq<IpPermission>): seq<IpPermission>
    decreases |sent|
  {
    if sent == [] then permissions
    else RevokeAll(RevokeOne(permissions, sent[0]), sent[1..])
  }

  /**
    Revoking `p` strips its CIDRs from the rule of (port, protocol) when `p` is for that pair,
    and leaves the rule of every other pair exactly as it was.
  */
  lemma {:induction false} RevokeOneRule(permissions: seq<IpPermission>, p: IpPermission, port: int, protocol: string)
    ensures var rule := RuleOf(permissions, port, protocol);
            RuleOf(RevokeOne(permissions, p), port, protocol)
              == if Matches(p, port, protocol) then Addresses(Without(rule.ipv4, p.ipRanges), Without(rule.ipv6, p.ipv6Ranges))
                 else rule
    decreases |permissions|
  {
    if permissions != [] {
      var n := |permissions| - 1;
      var init, q := permissions[..n], permissions[n];
      RevokeOneRule(init, p, port, protocol);
      assert permissions == init + [q];
      RuleOfSnoc(init, q, port, protocol);
      RuleOfSnoc(RevokeOne(init, p), RevokedFrom(q, p), port, protocol);
      var rule := RuleOf(init, port, protocol);
      if Matches(p, port, protocol) && Matches(q, port, protocol) {
        WithoutAppend(rule.ipv4, q.ipRanges, p.ipRanges);
        WithoutAppend(rule.ipv6, q.ipv6Ranges, p.ipv6Ranges);
      }
    }
  }

  /** The EC2 security group: its ingress permissions and the calls it has received. */
  class Group {
    var ipPermissions: seq<IpPermission>
    ghost var calls: seq<Call>

    constructor (ipPermissions: seq<IpPermission>)
      ensures this.ipPermissions == ipPermissions && calls == []
    {
      this.ipPermissions := ipPermissions;
      calls := [];
    }

    /** `authorize_ingress(IpPermissions=...)`: the sent permissions are added. */
    method AuthorizeIngress(permissions: seq<IpPermission>)
      modifies this
      ensures ipPermissions == old(ipPermissions) + permissions
      ensures calls == old(calls) + [AuthorizeCall(permissions)]
    {
      ipPermissions := ipPermissions + permissions;
      calls := calls + [AuthorizeCall(permissions)];
    }

    /** `revoke_ingress(IpPermissions=...)`: the sent CIDRs are removed from their rule. */
    method RevokeIngress(permissions: seq<IpPermission>)
      modifies this
      ensures ipPermissions == RevokeAll(old(ipPermissions), permissions)
      ensures calls == old(calls) + [RevokeCall(permissions)]
    {
      ipPermissions := RevokeAll(ipPermissions, permissions);
      calls := calls + [RevokeCall(permissions)];
    }
  }

  /** Reads the group's current rule for (port, protocol). */
  method GetRule(group: Group, port: int, protocol: string) returns (rule: Addresses)
    ensures rule == RuleOf(group.ipPermissions, port, protocol)
  {
    var permissions := group.ipPermissions;
    var ipv4: seq<Cidr> := [];
    var ipv6: seq<Cidr> := [];
    for i := 0 to |permissions|
      invariant Addresses(ipv4, ipv6) == RuleOf(permissions[..i], port, protocol)
    {
      var p := permissions[i];
      if p.fromPort == Some(port) && p.ipProtocol == Some(protocol) {
        ipv4 := ipv4 + p.ipRanges;
        ipv6 := ipv6 + p.ipv6Ranges;
      }
      assert permissions[..i + 1] == permissions[..i] + [p];
      RuleOfSnoc(permissions[..i], p, port, protocol);
    }
    assert permissions[..|permissions|] == permissions;
    rule := Addresses(ipv4, ipv6);
  }

  // ---------------------------------------------------------------------------------------
  // _set_rule
  // ---------------------------------------------------------------------------------------

  /** The single permission `_set_rule` sends, or nothing when both lists are empty. */
  function Payload(port: int, protocol: string, addresses: Addresses): (r: Option<IpPermission>)
    ensures r.None? <==> addresses.ipv4 == [] && addresses.ipv6 == []
  {
    if |addresses.ipv4| == 0 && |addresses.ipv6| == 0 then None
    else Some(IpPermission(Some(port), Some(port), Some(protocol), addresses.ipv4, addresses.ipv6, [], []))
  }

  /**
    The sent permission covers exactly `port` (FromPort = ToPort), carries no prefix lists or
    group pairs, and reading it back with `_get_rule` gives the lists that were sent for its own
    (port, protocol) and nothing for any other pair.
  */
  lemma PayloadReadsBack(port: int, protocol: string, addresses: Addresses, port': int, protocol': string)
    requires Payload(port, protocol, addresses).Some?
    ensures var p := Payload(port, protocol, addresses).value;
            && p.fromPort == p.toPort == Some(port)
            && p.prefixListIds == [] && p.userIdGroupPairs == []
            && RuleOf([p], port', protocol')
                 == if port' == port && protocol' == protocol then addresses else Addresses([], [])
  {
    var p := Payload(port, protocol, addresses).value;
    RuleOfSnoc([], p, port', protocol');
    assert [] + [p] == [p];
  }

  /** The permission list after `_set_rule(action, ...)`. */
  function Applied(action: Action, permissions: seq<IpPermission>, port: int, protocol: string, addresses: Addresses): seq<IpPermission> {
    match Payload(port, protocol, addresses)
    case None => permissions
    case Some(p) => if action == Authorize then permissions + [p] else RevokeAll(permissions, [p])
  }

  /** The service calls `_set_rule(action, ...)` issues: none, or one with one permission. */
  function CallsFor(action: Action, port: int, protocol: string, addresses: Addresses): seq<Call> {
    match Payload(port, protocol, addresses)
    case None => []
    case Some(p) => if action == Authorize then [AuthorizeCall([p])] else [RevokeCall([p])]
  }

  method SetRule(action: Action, group: Group, port: int, protocol: string, addresses: Addresses)
    modifies group
    ensures group.ipPermissions == Applied(action, old(group.ipPermissions), port, protocol, addresses)
    ensures group.calls == old(group.calls) + CallsFor(action, port, protocol, addresses)
  {
    if |addresses.ipv4| == 0 && |addresses.ipv6| == 0 {
      return;
    }
    var ipPermissions := [Payload(port, protocol, addresses).value];
    if action == Authorize {
      group.AuthorizeIngress(ipPermissions);
    } else {
      group.RevokeIngress(ipPermissions);
    }
  }

  /**
    Authorizing adds the sent CIDRs to the rule of (port, protocol); revoking removes them;
    either way the rule of every other pair keeps its exact lists.
  */
  lemma AppliedRule(action: Action, permissions: seq<IpPermission>, port: int, protocol: string, addresses: Addresses,
                    port': int, protocol': string)
    ensures var before := RuleOf(permissions, port', protocol');
            var after := RuleOf(Applied(action, permissions, port, protocol, addresses), port', protocol');
            if port' == port && protocol' == protocol then
              Sets(after) == if action == Authorize then AddressSets(Sets(before).ipv4 + Sets(addresses).ipv4, Sets(before).ipv6 + Sets(addresses).ipv6)
                             else AddressSets(Sets(before).ipv4 - Sets(addresses).ipv4, Sets(before).ipv6 - Sets(addresses).ipv6)
            else after == before
  {
    var payload := Payload(port, protocol, addresses);
    if payload.Some? {
      var p := payload.value;
      var before := RuleOf(permissions, port', protocol');
      if action == Authorize {
        RuleOfSnoc(permissions, p, port', protocol');
        var after := RuleOf(permissions + [p], port', protocol');
        if port' == port && protocol' == protocol {
          assert after == Addresses(before.ipv4 + addresses.ipv4, before.ipv6 + addresses.ipv6);
          assert Elems(after.ipv4) == Elems(before.ipv4) + Elems(addresses.ipv4);
          assert Elems(after.ipv6) == Elems(before.ipv6) + Elems(addresses.ipv6);
        }
      } else {
        assert RevokeAll(permissions, [p]) == RevokeOne(permissions, p) by {
          assert [p][1..] == [];
        }
        RevokeOneRule(permissions, p, port', protocol');
      }
    }
  }

  // ---------------------------------------------------------------------------------------
  // update_security_group
  // ---------------------------------------------------------------------------------------

  /** `[str(ipaddress.ip_network(ip)) for ip in addresses]`, with the normalisation as a parameter. */
  function Normalized(addresses: seq<string>, normalize: string -> Cidr): seq<Cidr> {
    seq(|addresses|, i requires 0 <= i < |addresses| => normalize(addresses[i]))
  }

  /** The permission list after revoking `current - desired` and then authorizing `desired - current`. */
  function Reconciled(permissions: seq<IpPermission>, port: int, protocol: string, desired: Addresses): seq<IpPermission> {
    var current := RuleOf(permissions, port, protocol);
    var revoked := Applied(Revoke, permissions, port, protocol, DiffAddresses(current, desired));
    Applied(Authorize, revoked, port, protocol, DiffAddresses(desired, current))
  }

  /** Revoking removes the sent CIDRs from the rule of (port, protocol). */
  lemma RevokedSets(permissions: seq<IpPermission>, port: int, protocol: string, addresses: Addresses)
    ensures var before := Sets(RuleOf(permissions, port, protocol));
            Sets(RuleOf(Applied(Revoke, permissions, port, protocol, addresses), port, protocol))
            == AddressSets(before.ipv4 - Sets(addresses).ipv4, before.ipv6 - Sets(addresses).ipv6)
  {
    AppliedRule(Revoke, permissions, port, protocol, addresses, port, protocol);
  }

  /** Authorizing adds the sent CIDRs to the rule of (port, protocol). */
  lemma AuthorizedSets(permissions: seq<IpPermission>, port: int, protocol: string, addresses: Addresses)
    ensures var before := Sets(RuleOf(permissions, port, protocol));
            Sets(RuleOf(Applied(Authorize, permissions, port, protocol, addresses), port, protocol))
            == AddressSets(before.ipv4 + Sets(addresses).ipv4, before.ipv6 + Sets(addresses).ipv6)
  {
    AppliedRule(Authorize, permissions, port, protocol, addresses, port, protocol);
  }

  /** Removing `c - d` from `c` and then adding `d - c` gives `d`. */
  lemma RevokeThenAuthorize<T>(c: set<T>, d: set<T>)
    ensures (c - (c - d)) + (d - c) == d
  {
  }

  /** After reconciliation the rule of (port, protocol) holds exactly the desired CIDRs. */
  lemma ReconcileConverges(permissions: seq<IpPermission>, port: int, protocol: string, desired: Addresses)
    ensures Sets(RuleOf(Reconciled(permissions, port, protocol, desired), port, protocol)) == Sets(desired)
  {
    var current := RuleOf(permissions, port, protocol);
    var revoking, authorizing := DiffAddresses(current, desired), DiffAddresses(desired, current);
    var revoked := Applied(Revoke, permissions, port, protocol, revoking);
    assert Reconciled(permissions, port, protocol, desired) == Applied(Authorize, revoked, port, protocol, authorizing);
    RevokedSets(permissions, port, protocol, revoking);
    AuthorizedSets(revoked, port, protocol, authorizing);
    var c, d := Sets(current), Sets(desired);
    RevokeThenAuthorize(c.ipv4, d.ipv4);
    RevokeThenAuthorize(c.ipv6, d.ipv6);
  }

  /** Reconciling (port, protocol) leaves the rule of every other pair exactly as it was. */
  lemma ReconcileKeepsOtherRules(permissions: seq<IpPermission>, port: int, protocol: string, desired: Addresses,
                                 port': int, protocol': string)
    requires port' != port || protocol' != protocol
    ensures RuleOf(Reconciled(permissions, port, protocol, desired), port', protocol') == RuleOf(permissions, port', protocol')
  {
    var current := RuleOf(permissions, port, protocol);
    var revoking, authorizing := DiffAddresses(current, desired), DiffAddresses(desired, current);
    var revoked := Applied(Revoke, permissions, port, protocol, revoking);
    AppliedRule(Revoke, permissions, port, protocol, revoking, port', protocol');
    AppliedRule(Authorize, revoked, port, protocol, authorizing, port', protocol');
  }

  /** Reconciling towards the rule just reached revokes nothing and authorizes nothing. */
  lemma ReconcileIdempotent(permissions: seq<IpPermission>, port: int, protocol: string, desired: Addresses)
    ensures var reached := RuleOf(Reconciled(permissions, port, protocol, desired), port, protocol);
            DiffAddresses(reached, desired) == Addresses([], []) && DiffAddresses(desired, reached) == Addresses([], [])
  {
    var reached := RuleOf(Reconciled(permissions, port, protocol, desired), port, protocol);
    ReconcileConverges(permissions, port, protocol, desired);
    EmptyElems(DiffAddresses(reached, desired).ipv4);
    EmptyElems(DiffAddresses(reached, desired).ipv6);
    EmptyElems(DiffAddresses(desired, reached).ipv4);
    EmptyElems(DiffAddresses(desired, reached).ipv6);
  }

  /**
    Normalises the requested CIDRs, revokes `current - desired`, then authorizes
    `desired - current`, and reports both diffs under the port and protocol it was given.
  */
  method UpdateSecurityGroup(group: Group, port: int, protocol: string,
                             allowedIpv4Addresses: seq<string>, allowedIpv6Addresses: seq<string>,
                             normalize: string -> Cidr)
    returns (result: UpdateResult)
    modifies group
    ensures var desired := Addresses(Normalized(allowedIpv4Addresses, normalize), Normalized(allowedIpv6Addresses, normalize));
            var current := RuleOf(old(group.ipPermissions), port, protocol);
            var revoking, authorizing := DiffAddresses(current, desired), DiffAddresses(desired, current);
            && result == UpdateResult(port, protocol, revoking.ipv4, authorizing.ipv4, revoking.ipv6, authorizing.ipv6)
            && group.ipPermissions == Reconciled(old(group.ipPermissions), port, protocol, desired)
            && group.calls == old(group.calls) + CallsFor(Revoke, port, protocol, revoking) + CallsFor(Authorize, port, protocol, authorizing)
            && Sets(RuleOf(group.ipPermissions, port, protocol)) == Sets(desired)
  {
    ghost var before := group.ipPermissions;
    var currentRule := GetRule(group, port, protocol);
    var newRule := Addresses(Normalized(allowedIpv4Addresses, normalize), Normalized(allowedIpv6Addresses, normalize));
    var revokingAddresses := DiffAddresses(currentRule, newRule);
    SetRule(Revoke, group, port, protocol, revokingAddresses);
    var authorizingAddresses := DiffAddresses(newRule, currentRule);
    SetRule(Authorize, group, port, protocol, authorizingAddresses);
    ReconcileConverges(before, port, protocol, newRule);
    result := UpdateResult(port, protocol,
                           revokingAddresses.ipv4, authorizingAddresses.ipv4,
                           revokingAddresses.ipv6, authorizingAddresses.ipv6);
  }

  // ---------------------------------------------------------------------------------------
  // The update sequence of the source's test suite
  // ---------------------------------------------------------------------------------------

  const Subnet: string := "192.168.0."
  const Cidr1: Cidr := Subnet + "1/32"
  const Cidr2: Cidr := Subnet + "2/32"
  const Cidr3: Cidr := Subnet + "3/32"

  /** The three test CIDRs are different addresses. */
  lemma TestCidrsDistinct()
    ensures Cidr1 != Cidr2 && Cidr1 != Cidr3 && Cidr2 != Cidr3
  {
    var n := |Subnet|;
    assert Cidr1[n] == '1' && Cidr2[n] == '2' && Cidr3[n] == '3';
  }

  /** The identity normalisation: the test CIDRs are already in canonical form. */
  function Canonical(cidr: string): Cidr {
    cidr
  }

  /** The test CIDRs come through normalisation unchanged. */
  lemma CanonicalUnchanged(addresses: seq<Cidr>)
    ensures Normalized(addresses, Canonical) == addresses
  {
    var n := Normalized(addresses, Canonical);
    assert |n| == |addresses|;
    forall i | 0 <= i < |addresses|
      ensures n[i] == addresses[i]
    {
      assert n[i] == Canonical(addresses[i]);
    }
  }

  /** The address sets of the three desired lists the test sends. */
  lemma TestElems()
    ensures Elems([Cidr1]) == {Cidr1}
    ensures Elems([Cidr1, Cidr2]) == {Cidr1, Cidr2}
    ensures Elems([Cidr1, Cidr2, Cidr3]) == {Cidr1, Cidr2, Cidr3}
  {
    ElemsConcat([Cidr1], [Cidr2]);
    ElemsConcat([Cidr1, Cidr2], [Cidr3]);
    assert [Cidr1, Cidr2] == [Cidr1] + [Cidr2];
    assert [Cidr1, Cidr2, Cidr3] == [Cidr1, Cidr2] + [Cidr3];
  }

  /** One update of the test that adds `cidr` to the IPv4 rule of port 123 over tcp. */
  method AddStep(group: Group, before: set<Cidr>, desired: seq<Cidr>, cidr: Cidr) returns (result: UpdateResult)
    requires Sets(RuleOf(group.ipPermissions, 123, "tcp")) == AddressSets(before, {})
    requires Elems(desired) == before + {cidr} && cidr !in before
    modifies group
    ensures result == UpdateResult(123, "tcp", [], [cidr], [], [])
    ensures Sets(RuleOf(group.ipPermissions, 123, "tcp")) == AddressSets(Elems(desired), {})
  {
    var none: seq<string> := [];
    CanonicalUnchanged(desired);
    assert Normalized(none, Canonical) == [];
    EmptyElems(RuleOf(group.ipPermissions, 123, "tcp").ipv6);
    AddOneCidr(RuleOf(group.ipPermissions, 123, "tcp"), Addresses(desired, []), cidr);
    result := UpdateSecurityGroup(group, 123, "tcp", desired, none, Canonical);
  }

  /** One update of the test that drops `cidr` from the IPv4 rule of port 123 over tcp. */
  method RemoveStep(group: Group, desired: seq<Cidr>, cidr: Cidr) returns (result: UpdateResult)
    requires Sets(RuleOf(group.ipPermissions, 123, "tcp")) == AddressSets(Elems(desired) + {cidr}, {})
    requires cidr !in desired
    modifies group
    ensures result == UpdateResult(123, "tcp", [cidr], [], [], [])
    ensures Sets(RuleOf(group.ipPermissions, 123, "tcp")) == AddressSets(Elems(desired), {})
  {
    var none: seq<string> := [];
    CanonicalUnchanged(desired);
    assert Normalized(none, Canonical) == [];
    EmptyElems(RuleOf(group.ipPermissions, 123, "tcp").ipv6);
    RemoveOneCidr(RuleOf(group.ipPermissions, 123, "tcp"), Addresses(desired, []), cidr);
    result := UpdateSecurityGroup(group, 123, "tcp", desired, none, Canonical);
  }

  /**
    On a group with no ingress rule, requesting {1}, {1,2}, {1,2,3}, {1,2}, {1} and {} in turn for
    port 123 over tcp reports, call by call, only the CIDR that was added or dropped.
  */
  method UpdateScenario() returns (results: seq<UpdateResult>)
    ensures results == [
              UpdateResult(123, "tcp", [], [Cidr1], [], []),
              UpdateResult(123, "tcp", [], [Cidr2], [], []),
              UpdateResult(123, "tcp", [], [Cidr3], [], []),
              UpdateResult(123, "tcp", [Cidr3], [], [], []),
              UpdateResult(123, "tcp", [Cidr2], [], [], []),
              UpdateResult(123, "tcp", [Cidr1], [], [], [])]
  {
    TestCidrsDistinct();
    TestElems();
    var group := new Group([]);
    var r1 := AddStep(group, {}, [Cidr1], Cidr1);
    var r2 := AddStep(group, {Cidr1}, [Cidr1, Cidr2], Cidr2);
    var r3 := AddStep(group, {Cidr1, Cidr2}, [Cidr1, Cidr2, Cidr3], Cidr3);
    var r4 := RemoveStep(group, [Cidr1, Cidr2], Cidr3);
    var r5 := RemoveStep(group, [Cidr1], Cidr2);
    var r6 := RemoveStep(group, [], Cidr1);
    results := [r1, r2, r3, r4, r5, r6];
  }
}

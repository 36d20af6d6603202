/** Network-address syntax used by the WKS validator: dotted-quad IPv4
    addresses, CIDR blocks in IPv4 prefix notation (section 3.1 of RFC 4632)
    and host/domain names (section 2.1 of RFC 1123). */
module Network {
  import opened Text
  import opened Decimal

  /** Four octets, most significant first, each at most 255. */
  predicate IsAddress(a: seq<nat>)
  {
    |a| == 4 && forall i :: 0 <= i < |a| ==> a[i] <= 255
  }

  /** Each field read as an octet: a canonical numeral no larger than 255. */
  function ParseOctets(fields: seq<string>): (r: Option<seq<nat>>)
    ensures r.Some? <==>
      forall i :: 0 <= i < |fields| ==> ParseNat(fields[i]).Some? && ParseNat(fields[i]).value <= 255
    ensures r.Some? ==> |r.value| == |fields|
    ensures r.Some? ==> forall i :: 0 <= i < |fields| ==> ParseNat(fields[i]) == Some(r.value[i])
    decreases |fields|
  {
    if fields == [] then Some([])
    else
      var head := ParseNat(fields[0]);
      var tail := ParseOctets(fields[1..]);
      if head.None? || head.value > 255 then None
      else if tail.None? then None
      else Some([head.value] + tail.value)
  }

  function ShowOctets(a: seq<nat>): (fields: seq<string>)
    ensures |fields| == |a|
    ensures forall i :: 0 <= i < |a| ==> fields[i] == NatToString(a[i])
    decreases |a|
  {
    if a == [] then [] else [NatToString(a[0])] + ShowOctets(a[1..])
  }

  /** The dotted-quad text of an address. */
  function FormatIPv4(a: seq<nat>): string
    requires IsAddress(a)
  {
    Join(ShowOctets(a), '.')
  }

  /** The address a dotted-quad string denotes: exactly four '.'-separated
      octets; "192.1680.1.0" has an octet above 255 and is not one. */
  function ParseIPv4(s: string): Option<seq<nat>>
  {
    var fields := Split(s, '.');
    if |fields| != 4 then None else ParseOctets(fields)
  }

  predicate IsIPv4(s: string)
  {
    ParseIPv4(s).Some?
  }

  lemma ShowOctetsNoDots(a: seq<nat>)
    ensures NoSep(ShowOctets(a), '.')
  {
    forall i | 0 <= i < |a| ensures '.' !in ShowOctets(a)[i] {
      assert IsCanonical(NatToString(a[i]));
    }
  }

  /** Parsing the text of an address gives the address back. */
  lemma IPv4RoundTrip(a: seq<nat>)
    requires IsAddress(a)
    ensures ParseIPv4(FormatIPv4(a)) == Some(a)
  {
    ShowOctetsNoDots(a);
    SplitJoin(ShowOctets(a), '.');
    forall i | 0 <= i < 4 ensures ParseNat(ShowOctets(a)[i]) == Some(a[i]) {
      ParseFormat(a[i]);
    }
    var r := ParseOctets(ShowOctets(a));
    assert r.value == a;
  }

  /** An accepted dotted quad is exactly the text of the address it denotes. */
  lemma IPv4Canonical(s: string)
    requires IsIPv4(s)
    ensures IsAddress(ParseIPv4(s).value)
    ensures FormatIPv4(ParseIPv4(s).value) == s
  {
    var fields := Split(s, '.');
    var a := ParseIPv4(s).value;
    forall i | 0 <= i < 4 ensures NatToString(a[i]) == fields[i] {
      FormatParse(fields[i]);
    }
    assert ShowOctets(a) == fields;
    JoinSplit(s, '.');
  }

  /** Every character of a dotted quad is a digit or a dot. */
  lemma {:induction false} JoinedDigits(fields: seq<string>)
    requires |fields| >= 1
    requires forall i :: 0 <= i < |fields| ==> AllDigits(fields[i])
    ensures forall k :: 0 <= k < |Join(fields, '.')| ==>
      IsDigit(Join(fields, '.')[k]) || Join(fields, '.')[k] == '.'
    decreases |fields|
  {
    if |fields| > 1 {
      JoinedDigits(fields[1..]);
    }
  }

  /** A CIDR block: a network address and a prefix length. The address may
      have host bits set beyond the prefix ("192.168.1.0/16"). */
  datatype CIDR = CIDR(address: seq<nat>, prefix: nat)

  predicate IsBlock(c: CIDR)
  {
    IsAddress(c.address) && c.prefix <= 32
  }

  function FormatCIDR(c: CIDR): string
    requires IsBlock(c)
  {
    FormatIPv4(c.address) + "/" + NatToString(c.prefix)
  }

  /** A dotted quad, a '/', and a prefix length from 0 to 32. */
  function ParseCIDR(s: string): (r: Option<CIDR>)
    ensures r.Some? ==> IsBlock(r.value)
  {
    var fields := Split(s, '/');
    if |fields| != 2 then None
    else
      var address := ParseIPv4(fields[0]);
      var prefix := ParseNat(fields[1]);
      if address.None? || prefix.None? || prefix.value > 32 then None
      else
        IPv4Canonical(fields[0]);
        Some(CIDR(address.value, prefix.value))
  }

  predicate IsCIDR(s: string)
  {
    ParseCIDR(s).Some?
  }

  /** Parsing the text of a block gives the block back, whatever its host
      bits: every address and every prefix length up to 32 is accepted. */
  lemma CIDRRoundTrip(c: CIDR)
    requires IsBlock(c)
    ensures ParseCIDR(FormatCIDR(c)) == Some(c)
  {
    var a := FormatIPv4(c.address);
    var p := NatToString(c.prefix);
    forall i | 0 <= i < 4 ensures AllDigits(ShowOctets(c.address)[i]) { }
    JoinedDigits(ShowOctets(c.address));
    SplitJoin([a, p], '/');
    assert Join([a, p], '/') == FormatCIDR(c);
    IPv4RoundTrip(c.address);
    ParseFormat(c.prefix);
  }

  /** An accepted block is exactly the text of the block it denotes. */
  lemma CIDRCanonical(s: string)
    requires IsCIDR(s)
    ensures FormatCIDR(ParseCIDR(s).value) == s
  {
    var fields := Split(s, '/');
    IPv4Canonical(fields[0]);
    FormatParse(fields[1]);
    JoinSplit(s, '/');
  }

  predicate IsLetter(c: char)
  {
    'a' <= c <= 'z' || 'A' <= c <= 'Z'
  }

  predicate IsLabelChar(c: char)
  {
    IsLetter(c) || IsDigit(c) || c == '-'
  }

  /** A label of section 2.1 of RFC 1123: 1 to 63 letters, digits and
      hyphens, starting and ending with a letter or digit. */
  predicate IsLabel(l: string)
  {
    && 1 <= |l| <= 63
    && (forall i :: 0 <= i < |l| ==> IsLabelChar(l[i]))
    && l[0] != '-'
    && l[|l| - 1] != '-'
  }

  predicate HasLetter(l: string)
  {
    exists i :: 0 <= i < |l| && IsLetter(l[i])
  }

  /** A host/domain name: '.'-separated labels, at most 253 characters in
      all, whose top-level label is not all digits (section 2.1 of RFC 1123:
      a host name never has the dotted-decimal form). */
  predicate IsDomainName(s: string)
  {
    && |s| <= 253
    && var labels := Split(s, '.');
    && (forall i :: 0 <= i < |labels| ==> IsLabel(labels[i]))
    && HasLetter(labels[|labels| - 1])
  }

  /** A string is never both a dotted quad and a domain name, so the two
      readings of a control-plane address never compete. */
  lemma IPv4IsNotDomainName(s: string)
    requires IsIPv4(s)
    ensures !IsDomainName(s)
  {
    var top := Split(s, '.')[3];
    assert ParseNat(top).Some?;
    forall k | 0 <= k < |top| ensures !IsLetter(top[k]) {
      assert IsDigit(top[k]);
    }
  }

  /** What the control-plane load balancer address may be. */
  predicate IsLoadBalancerAddress(s: string)
  {
    IsIPv4(s) || IsDomainName(s)
  }

  /** The dotted quads are exactly the texts of the addresses. */
  lemma IPv4Text(s: string)
    ensures IsIPv4(s) <==> exists a :: IsAddress(a) && FormatIPv4(a) == s
  {
    if IsIPv4(s) {
      IPv4Canonical(s);
    }
    if exists a :: IsAddress(a) && FormatIPv4(a) == s {
      var a :| IsAddress(a) && FormatIPv4(a) == s;
      IPv4RoundTrip(a);
    }
  }

  /** One or more labels, the top-level one with a letter. */
  predicate IsLabelSequence(labels: seq<string>)
  {
    && |labels| >= 1
    && (forall i :: 0 <= i < |labels| ==> IsLabel(labels[i]))
    && HasLetter(labels[|labels| - 1])
  }

  /** Labels joined by '.' form a domain name when the whole is short
      enough. */
  lemma LabelsJoinIsDomainName(labels: seq<string>)
    requires IsLabelSequence(labels) && |Join(labels, '.')| <= 253
    ensures IsDomainName(Join(labels, '.'))
  {
    forall i | 0 <= i < |labels| ensures '.' !in labels[i] {
      assert forall k :: 0 <= k < |labels[i]| ==> IsLabelChar(labels[i][k]);
    }
    SplitJoin(labels, '.');
  }

  /** The domain names are exactly the '.'-joined label sequences of at
      most 253 characters in all. */
  lemma DomainNameLabels(s: string)
    ensures IsDomainName(s) <==>
      |s| <= 253 && exists labels :: IsLabelSequence(labels) && Join(labels, '.') == s
  {
    if IsDomainName(s) {
      var labels := Split(s, '.');
      JoinSplit(s, '.');
      assert IsLabelSequence(labels);
    }
    if |s| <= 253 && exists labels :: IsLabelSequence(labels) && Join(labels, '.') == s {
      var labels :| IsLabelSequence(labels) && Join(labels, '.') == s;
      LabelsJoinIsDomainName(labels);
    }
  }

  /** A control-plane address is a dotted quad or a domain name, and an
      accepted one is read in exactly one of the two ways. */
  lemma LoadBalancerAddressReadings(s: string)
    ensures IsLoadBalancerAddress(s) <==>
      (exists a :: IsAddress(a) && FormatIPv4(a) == s) || IsDomainName(s)
    ensures IsLoadBalancerAddress(s) ==> (IsIPv4(s) <==> !IsDomainName(s))
  {
    IPv4Text(s);
    if IsIPv4(s) {
      IPv4IsNotDomainName(s);
    }
  }
}

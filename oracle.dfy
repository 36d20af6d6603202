/** The literal values the configuration tests use (numbers, dotted
    quads, CIDR blocks, host names, versions) and how the syntax
    predicates classify each of them. */
module Oracle {
  import opened Text
  import opened Decimal
  import opened Network
  import opened KubeVersion
  import opened Validators

  /** The decimal texts of the numbers that occur in the test rows. */
  lemma Numerals()
    ensures NatToString(0) == "0" && NatToString(1) == "1" && NatToString(10) == "10"
    ensures NatToString(12) == "12" && NatToString(14) == "14" && NatToString(16) == "16"
    ensures NatToString(96) == "96" && NatToString(168) == "168" && NatToString(192) == "192"
    ensures NatToString(1000) == "1000" && NatToString(1680) == "1680"
  {
    assert NatToString(16) == NatToString(1) + [DigitChar(6)];
    assert NatToString(19) == NatToString(1) + [DigitChar(9)];
    assert NatToString(100) == NatToString(10) + [DigitChar(0)];
    assert NatToString(168) == NatToString(16) + [DigitChar(8)];
    assert NatToString(192) == NatToString(19) + [DigitChar(2)];
    assert NatToString(1000) == NatToString(100) + [DigitChar(0)];
    assert NatToString(1680) == NatToString(168) + [DigitChar(0)];
  }

  /** Four separator-free fields joined by `sep` split back into them. */
  lemma FourFields(a: string, b: string, c: string, d: string, sep: char)
    requires sep !in a && sep !in b && sep !in c && sep !in d
    ensures Split(a + [sep] + b + [sep] + c + [sep] + d, sep) == [a, b, c, d]
  {
    var t2 := c + [sep] + d;
    var t1 := b + [sep] + t2;
    TwoFields(c, d, sep);
    SplitCons(b, sep, t2);
    SplitCons(a, sep, t1);
    assert a + [sep] + t1 == a + [sep] + b + [sep] + c + [sep] + d;
    assert [a] + ([b] + [c, d]) == [a, b, c, d];
  }

  /** Two separator-free fields joined by `sep` split back into them. */
  lemma TwoFields(a: string, b: string, sep: char)
    requires sep !in a && sep !in b
    ensures Split(a + [sep] + b, sep) == [a, b]
  {
    SplitCons(a, sep, b);
    SplitField(b, sep);
  }

  /** The fields of the well-formed dotted quads the WKS rows use. */
  lemma QuadFields()
    ensures Split("192.168.1.0", '.') == ["192", "168", "1", "0"]
    ensures Split("10.96.0.0", '.') == ["10", "96", "0", "0"]
  {
    FourFields("192", "168", "1", "0", '.');
    assert "192.168.1.0" == "192" + "." + "168" + "." + "1" + "." + "0";
    FourFields("10", "96", "0", "0", '.');
    assert "10.96.0.0" == "10" + "." + "96" + "." + "0" + "." + "0";
  }

  /** The fields of the malformed ones. */
  lemma BadQuadFields()
    ensures Split("192.1680.1.0", '.') == ["192", "1680", "1", "0"]
    ensures Split("1000.96.0.0", '.') == ["1000", "96", "0", "0"]
  {
    FourFields("192", "1680", "1", "0", '.');
    assert "192.1680.1.0" == "192" + "." + "1680" + "." + "1" + "." + "0";
    FourFields("1000", "96", "0", "0", '.');
    assert "1000.96.0.0" == "1000" + "." + "96" + "." + "0" + "." + "0";
  }

  /** The octets of 192.168.1.0. */
  lemma OctetsOfPodBlock()
    ensures ParseOctets(["192", "168", "1", "0"]) == Some([192, 168, 1, 0])
  {
    Numerals();
    ParseFormat(192); ParseFormat(168); ParseFormat(1); ParseFormat(0);
    var fields, a := ["192", "168", "1", "0"], [192, 168, 1, 0];
    assert forall i :: 0 <= i < 4 ==> ParseNat(fields[i]) == Some(a[i]);
    assert ParseOctets(fields).value == a;
  }

  /** The octets of 10.96.0.0. */
  lemma OctetsOfServiceBlock()
    ensures ParseOctets(["10", "96", "0", "0"]) == Some([10, 96, 0, 0])
  {
    Numerals();
    ParseFormat(10); ParseFormat(96); ParseFormat(0);
    var fields, a := ["10", "96", "0", "0"], [10, 96, 0, 0];
    assert forall i :: 0 <= i < 4 ==> ParseNat(fields[i]) == Some(a[i]);
    assert ParseOctets(fields).value == a;
  }

  /** The well-formed dotted quads of the WKS rows parse. */
  lemma AcceptedAddresses()
    ensures ParseIPv4("192.168.1.0") == Some([192, 168, 1, 0])
    ensures ParseIPv4("10.96.0.0") == Some([10, 96, 0, 0])
  {
    QuadFields();
    OctetsOfPodBlock();
    OctetsOfServiceBlock();
  }

  /** The dotted quads with an octet of 1680 or 1000 do not. */
  lemma RejectedAddresses()
    ensures !IsIPv4("192.1680.1.0") && !IsIPv4("1000.96.0.0")
  {
    Numerals();
    BadQuadFields();
    ParseFormat(1680);
    ParseFormat(1000);
    var f1 := ["192", "1680", "1", "0"];
    var f2 := ["1000", "96", "0", "0"];
    assert ParseNat(f1[1]) == Some(1680);
    assert ParseNat(f2[0]) == Some(1000);
  }

  /** The address and prefix fields of the well-formed CIDR blocks. */
  lemma BlockFields()
    ensures Split("10.96.0.0/12", '/') == ["10.96.0.0", "12"]
    ensures Split("192.168.1.0/16", '/') == ["192.168.1.0", "16"]
  {
    TwoFields("10.96.0.0", "12", '/');
    assert "10.96.0.0/12" == "10.96.0.0" + "/" + "12";
    TwoFields("192.168.1.0", "16", '/');
    assert "192.168.1.0/16" == "192.168.1.0" + "/" + "16";
  }

  /** The address and prefix fields of the malformed ones. */
  lemma BadBlockFields()
    ensures Split("1000.96.0.0/12", '/') == ["1000.96.0.0", "12"]
    ensures Split("192.1680.1.0/16", '/') == ["192.1680.1.0", "16"]
  {
    TwoFields("1000.96.0.0", "12", '/');
    assert "1000.96.0.0/12" == "1000.96.0.0" + "/" + "12";
    TwoFields("192.1680.1.0", "16", '/');
    assert "192.1680.1.0/16" == "192.1680.1.0" + "/" + "16";
  }

  /** The CIDR blocks of the WKS rows: a prefix with host bits set is
      accepted. */
  lemma AcceptedBlocks()
    ensures ParseCIDR("10.96.0.0/12") == Some(CIDR([10, 96, 0, 0], 12))
    ensures ParseCIDR("192.168.1.0/16") == Some(CIDR([192, 168, 1, 0], 16))
  {
    Numerals();
    ParseFormat(12); ParseFormat(16);
    BlockFields();
    AcceptedAddresses();
  }

  /** A block whose address has an octet above 255 is not. */
  lemma RejectedBlocks()
    ensures !IsCIDR("1000.96.0.0/12") && !IsCIDR("192.1680.1.0/16")
  {
    BadBlockFields();
    RejectedAddresses();
  }

  /** The labels of the load-balancer names of the WKS rows. */
  lemma NameLabels()
    ensures Split("hello-World.com", '.') == ["hello-World", "com"]
    ensures Split("hello-World-.com", '.') == ["hello-World-", "com"]
  {
    TwoFields("hello-World", "com", '.');
    assert "hello-World.com" == "hello-World" + "." + "com";
    TwoFields("hello-World-", "com", '.');
    assert "hello-World-.com" == "hello-World-" + "." + "com";
  }

  /** The labels themselves: a trailing hyphen is refused, and an all-digit
      label has no letter. */
  lemma LabelFacts()
    ensures IsLabel("hello-World") && IsLabel("com") && HasLetter("com")
    ensures !IsLabel("hello-World-") && !HasLetter("0")
  {
    assert IsLetter("com"[0]);
  }

  /** A name of letter-and-hyphen labels with a letter in the top label is
      a domain name. */
  lemma AcceptedName()
    ensures IsDomainName("hello-World.com")
  {
    var labels := ["hello-World", "com"];
    LabelFacts();
    assert IsLabelSequence(labels);
    assert labels[1..] == ["com"];
    assert Join(labels, '.') == "hello-World" + "." + "com" == "hello-World.com";
    LabelsJoinIsDomainName(labels);
  }

  /** A label may not end with a hyphen. */
  lemma TrailingHyphenName()
    ensures !IsDomainName("hello-World-.com")
  {
    NameLabels();
    LabelFacts();
    var labels := Split("hello-World-.com", '.');
    assert !IsLabel(labels[0]);
  }

  /** A name of two labels is not a dotted quad. */
  lemma NamesAreNotQuads()
    ensures !IsIPv4("hello-World-.com") && !IsIPv4("hello-World.com")
  {
    NameLabels();
  }

  /** A dotted decimal string is not a domain name. */
  lemma DottedDecimalName()
    ensures !IsDomainName("192.1680.1.0")
  {
    BadQuadFields();
    LabelFacts();
    var labels := Split("192.1680.1.0", '.');
    assert !HasLetter(labels[3]);
  }

  /** The version strings the EKS and WKS rows use. */
  lemma VersionExamples()
    ensures IsWKSVersion("1.14.1") && !IsWKSVersion("1.16.1")
    ensures IsEKSVersion("1.14") && !IsEKSVersion("1.16")
  {
    Numerals();
    assert FormatVersion(Version(1, 14, 1)) == "1.14.1";
    assert FormatVersion(Version(1, 16, 1)) == "1.16.1";
    VersionRoundTrip(Version(1, 14, 1));
    VersionRoundTrip(Version(1, 16, 1));
    assert InWKSRange(Version(1, 14, 1));
    assert !InWKSRange(Version(1, 16, 1));
  }

  /** The single-block lists of the valid WKS documents pass the block check. */
  lemma AcceptedBlockLists()
    ensures AllCIDR(["10.96.0.0/12"]) && AllCIDR(["192.168.1.0/16"])
  {
    AcceptedBlocks();
  }

  /** Both load-balancer readings occur among the accepted addresses. */
  lemma AcceptedLbAddresses()
    ensures IsLoadBalancerAddress("192.168.1.0") && IsLoadBalancerAddress("hello-World.com")
  {
    AcceptedAddresses();
    AcceptedName();
  }

  /** A malformed dotted quad is neither an address nor a name. */
  lemma RejectedQuadLbAddress()
    ensures !IsLoadBalancerAddress("192.1680.1.0")
  {
    RejectedAddresses();
    DottedDecimalName();
  }

  /** A name with a trailing hyphen is neither a name nor an address. */
  lemma RejectedNameLbAddress()
    ensures !IsLoadBalancerAddress("hello-World-.com")
  {
    TrailingHyphenName();
    NamesAreNotQuads();
  }
}

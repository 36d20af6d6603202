/** Kubernetes versions. The EKS track names a minor release exactly
    ("1.14"); the WKS tracks give a full MAJOR.MINOR.PATCH version that must
    lie in the range 1.14.x-1.15.x. */
module KubeVersion {
  import opened Text
  import opened Decimal

  datatype Version = Version(major: nat, minor: nat, patch: nat)

  /** Semantic-version precedence: major, then minor, then patch. */
  predicate Less(v: Version, w: Version)
  {
    || v.major < w.major
    || (v.major == w.major && v.minor < w.minor)
    || (v.major == w.major && v.minor == w.minor && v.patch < w.patch)
  }

  /** Three '.'-separated canonical numerals. */
  function ParseVersion(s: string): Option<Version>
  {
    var fields := Split(s, '.');
    if |fields| != 3 then None
    else
      var major, minor, patch := ParseNat(fields[0]), ParseNat(fields[1]), ParseNat(fields[2]);
      if major.None? || minor.None? || patch.None? then None
      else Some(Version(major.value, minor.value, patch.value))
  }

  /** 1.14.0 <= v < 1.16.0 */
  predicate InWKSRange(v: Version)
  {
    !Less(v, Version(1, 14, 0)) && Less(v, Version(1, 16, 0))
  }

  predicate IsWKSVersion(s: string)
  {
    ParseVersion(s).Some? && InWKSRange(ParseVersion(s).value)
  }

  /** The EKS track accepts exactly these two strings. */
  predicate IsEKSVersion(s: string)
  {
    s == "1.14" || s == "1.15"
  }

  function FormatVersion(v: Version): string
  {
    NatToString(v.major) + "." + NatToString(v.minor) + "." + NatToString(v.patch)
  }

  /** Parsing the text of a version gives the version back. */
  lemma VersionRoundTrip(v: Version)
    ensures ParseVersion(FormatVersion(v)) == Some(v)
  {
    var fields := [NatToString(v.major), NatToString(v.minor), NatToString(v.patch)];
    JoinThree(fields[0], fields[1], fields[2], '.');
    assert NoSep(fields, '.') by {
      assert IsCanonical(fields[0]) && IsCanonical(fields[1]) && IsCanonical(fields[2]);
    }
    SplitJoin(fields, '.');
    ParseFormat(v.major);
    ParseFormat(v.minor);
    ParseFormat(v.patch);
  }

  /** An accepted version string is exactly the text of its version. */
  lemma VersionCanonical(s: string)
    requires ParseVersion(s).Some?
    ensures FormatVersion(ParseVersion(s).value) == s
  {
    var fields := Split(s, '.');
    FormatParse(fields[0]);
    FormatParse(fields[1]);
    FormatParse(fields[2]);
    JoinSplit(s, '.');
    JoinThree(fields[0], fields[1], fields[2], '.');
    assert fields == [fields[0], fields[1], fields[2]];
  }

  lemma WKSText(minor: nat, p: nat)
    requires minor == 14 || minor == 15
    ensures FormatVersion(Version(1, minor, p)) ==
      (if minor == 14 then "1.14." else "1.15.") + NatToString(p)
  {
    assert NatToString(14) == NatToString(1) + [DigitChar(4)];
    assert NatToString(15) == NatToString(1) + [DigitChar(5)];
  }

  /** The range check by precedence accepts exactly the strings "1.14.<p>"
      and "1.15.<p>" for a patch number p written as %d writes it. */
  lemma WKSVersionText(s: string)
    ensures IsWKSVersion(s) <==>
      exists p: nat :: s == "1.14." + NatToString(p) || s == "1.15." + NatToString(p)
  {
    if IsWKSVersion(s) {
      var v := ParseVersion(s).value;
      VersionCanonical(s);
      WKSText(v.minor, v.patch);
    }
    if exists p: nat :: s == "1.14." + NatToString(p) || s == "1.15." + NatToString(p) {
      var p: nat :| s == "1.14." + NatToString(p) || s == "1.15." + NatToString(p);
      var minor := if s == "1.14." + NatToString(p) then 14 else 15;
      WKSText(minor, p);
      VersionRoundTrip(Version(1, minor, p));
    }
  }

  /** No EKS version string is a WKS version string: the EKS form has no
      patch component. */
  lemma EKSVersionIsNotWKSVersion(s: string)
    requires IsEKSVersion(s)
    ensures !IsWKSVersion(s)
  {
    var fields := if s == "1.14" then ["1", "14"] else ["1", "15"];
    assert s == Join(fields, '.');
    SplitJoin(fields, '.');
  }

  /** The version strings are exactly the texts of the versions. */
  lemma VersionText(s: string)
    ensures ParseVersion(s).Some? <==> exists v :: FormatVersion(v) == s
  {
    if ParseVersion(s).Some? {
      VersionCanonical(s);
    }
    if exists v :: FormatVersion(v) == s {
      var v :| FormatVersion(v) == s;
      VersionRoundTrip(v);
    }
  }

  /** If s + ".0" is a five-character prefix ending in '.' followed by a
      numeral, s is that prefix without its '.'. */
  lemma PatchZeroPrefix(s: string, pre: string, t: string)
    requires s + ".0" == pre + t && |pre| == 5 && IsCanonical(t)
    ensures s == pre[..4]
  {
    assert (s + ".0")[|s|] == '.';
    assert forall k :: 0 <= k < |t| ==> (pre + t)[5 + k] == t[k] && t[k] != '.';
    assert |s| == 4;
    assert s == (pre + t)[..4];
  }

  /** The EKS version strings are exactly the minor releases of the WKS
      range: s is one iff its ".0" patch release is a WKS version. */
  lemma EKSVersionIsWKSMinor(s: string)
    ensures IsEKSVersion(s) <==> IsWKSVersion(s + ".0")
  {
    var z := NatToString(0);
    assert z == "0" by { assert z == [DigitChar(0)]; }
    WKSVersionText(s + ".0");
    if IsEKSVersion(s) {
      assert s + ".0" == "1.14." + NatToString(0) || s + ".0" == "1.15." + NatToString(0);
    }
    if IsWKSVersion(s + ".0") {
      var p: nat :| s + ".0" == "1.14." + NatToString(p) || s + ".0" == "1.15." + NatToString(p);
      if s + ".0" == "1.14." + NatToString(p) {
        PatchZeroPrefix(s, "1.14.", NatToString(p));
        assert "1.14."[..4] == "1.14";
      } else {
        PatchZeroPrefix(s, "1.15.", NatToString(p));
        assert "1.15."[..4] == "1.15";
      }
      assert IsEKSVersion(s);
    }
  }
}

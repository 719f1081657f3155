/** Pod names and their ordinals. */
module PodNames {
  import opened AppTypes
  import opened Sequences

  function PodType(kind: Kind): string {
    match kind
    case Standalone => "standalone"
    case LicenseManager => "license-manager"
    case LicenseMaster => "license-master"
    case SearchHeadCluster => "deployer"
    case IndexerCluster => ""
    case ClusterMaster => "cluster-master"
    case ClusterManager => "cluster-manager"
    case MonitoringConsole => "monitoring-console"
    case IngestorCluster => "ingestor"
  }

  function Decimal(n: nat): (s: string)
    ensures |s| > 0 && forall k :: 0 <= k < |s| ==> '0' <= s[k] <= '9'
  {
    if n < 10 then ['0' + n as char] else Decimal(n / 10) + ['0' + (n % 10) as char]
  }

  function PodName(kind: Kind, name: string, ordinal: nat): string {
    if kind == IndexerCluster then "" else "splunk-" + name + "-" + PodType(kind) + "-" + Decimal(ordinal)
  }

  function Dashes(s: string): nat {
    if s == [] then 0 else (if s[0] == '-' then 1 else 0) + Dashes(s[1..])
  }

  // The value of a decimal numeral without a sign.
  function Digits(s: string): Option<nat> {
    if s == [] then None
    else
      var d := s[|s| - 1];
      if d < '0' || '9' < d then None
      else if |s| == 1 then Some(d as int - '0' as int)
      else
        var high := Digits(s[..|s| - 1]);
        if high.None? then None else Some(10 * high.value + (d as int - '0' as int))
  }

  const MAX_INT: nat := 0x7FFF_FFFF_FFFF_FFFF

  // A parsed 64-bit integer. A failed conversion still yields a number: zero for a malformed numeral, the nearest
  // representable integer for one out of range.
  datatype Number = Number(value: int, ok: bool)

  function Atoi(s: string): Number {
    var negative := |s| > 0 && s[0] == '-';
    var digits := Digits(if |s| > 0 && (s[0] == '-' || s[0] == '+') then s[1..] else s);
    if digits.None? then Number(0, false)
    else if negative then
      if digits.value <= MAX_INT + 1 then Number(0 - digits.value, true) else Number(0 - MAX_INT - 1, false)
    else if digits.value <= MAX_INT then Number(digits.value, true)
    else Number(MAX_INT, false)
  }

  function OrdinalOf(podName: string): Number {
    if Dashes(podName) < 3 then Number(0, false)
    else
      var tokens := Split(podName, '-');
      Atoi(tokens[|tokens| - 1])
  }

  lemma {:induction false} DigitsOfDecimal(n: nat)
    ensures Digits(Decimal(n)) == Some(n)
  {
    if n < 10 {
    } else {
      DigitsOfDecimal(n / 10);
      assert Decimal(n)[..|Decimal(n)| - 1] == Decimal(n / 10);
    }
  }

  lemma {:induction false} LastToken(prefix: string, s: string)
    requires '-' !in s
    ensures var tokens := Split(prefix + "-" + s, '-'); tokens[|tokens| - 1] == s
  {
    var t := prefix + "-" + s;
    if prefix == [] {
      assert t[1..] == s;
      OneToken(s);
    } else {
      assert t[1..] == prefix[1..] + "-" + s;
      LastToken(prefix[1..], s);
      DashSplits(prefix[1..], s);
    }
  }

  lemma {:induction false} OneToken(s: string)
    requires '-' !in s
    ensures Split(s, '-') == [s]
  {
    if s == [] {
    } else {
      OneToken(s[1..]);
      assert [s[0]] + s[1..] == s;
    }
  }

  lemma {:induction false} DashSplits(prefix: string, s: string)
    ensures |Split(prefix + "-" + s, '-')| >= 2
  {
    var t := prefix + "-" + s;
    if prefix == [] {
    } else {
      assert t[1..] == prefix[1..] + "-" + s;
      DashSplits(prefix[1..], s);
    }
  }

  lemma {:induction false} DashesOfSum(s: string, t: string)
    ensures Dashes(s + t) == Dashes(s) + Dashes(t)
  {
    if s == [] {
      assert s + t == t;
    } else {
      assert (s + t)[1..] == s[1..] + t;
      DashesOfSum(s[1..], t);
    }
  }

  /** Every pod name of a kind that has one holds at least three dashes. */
  lemma ThreeDashes(kind: Kind, name: string, ordinal: nat)
    requires kind != IndexerCluster
    ensures Dashes(PodName(kind, name, ordinal)) >= 3
  {
    var d := Decimal(ordinal);
    var s1, s2, s3 := "splunk-" + name, "splunk-" + name + "-", "splunk-" + name + "-" + PodType(kind);
    assert Dashes("-") == 1;
    assert Dashes("splunk-") >= 1 by {
      assert "splunk-" == "splunk" + "-";
      DashesOfSum("splunk", "-");
    }
    DashesOfSum("splunk-", name);
    DashesOfSum(s1, "-");
    DashesOfSum(s2, PodType(kind));
    DashesOfSum(s3, "-");
    DashesOfSum(s3 + "-", d);
  }

  lemma OrdinalAfter(prefix: string, ordinal: nat)
    requires Dashes(prefix + "-" + Decimal(ordinal)) >= 3 && ordinal <= MAX_INT
    ensures OrdinalOf(prefix + "-" + Decimal(ordinal)) == Number(ordinal, true)
  {
    hide Split, Dashes, Decimal, Digits;
    LastToken(prefix, Decimal(ordinal));
    DigitsOfDecimal(ordinal);
  }

  /** Parsing the ordinal undoes formatting the name, for every resource name, dashes and all, and every ordinal that is
      an int; a kind without a pod of its own has no parseable name. */
  lemma OrdinalRoundTrip(kind: Kind, name: string, ordinal: nat)
    ensures kind != IndexerCluster && ordinal <= MAX_INT ==> OrdinalOf(PodName(kind, name, ordinal)) == Number(ordinal, true)
    ensures kind == IndexerCluster ==> OrdinalOf(PodName(kind, name, ordinal)) == Number(0, false)
  {
    if kind != IndexerCluster && ordinal <= MAX_INT {
      ThreeDashes(kind, name, ordinal);
      OrdinalAfter("splunk-" + name + "-" + PodType(kind), ordinal);
      hide Dashes, Decimal, PodType, OrdinalOf;
    }
  }

  /** Different ordinals have different pods. */
  lemma PodsDistinct(kind: Kind, name: string, i: nat, j: nat)
    requires kind != IndexerCluster && i <= MAX_INT && j <= MAX_INT && PodName(kind, name, i) == PodName(kind, name, j)
    ensures i == j
  {
    OrdinalRoundTrip(kind, name, i);
    OrdinalRoundTrip(kind, name, j);
  }
}

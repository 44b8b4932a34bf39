/**
 * The provider catalog of internal/domain/provider.go: three closed string
 * enumerations (access providers, ACME DNS-01 providers, deploy targets). Their
 * documented rules are stated and proved here: every list is in ASCII order, the
 * part of a DNS or deploy tag before the dash is always an access-provider tag, and
 * five legacy DNS tags are equivalent to canonical dashed tags.
 */
module Providers {

  // ---------------------------------------------------------------------------
  // ASCII order on strings

  /** a and b agree on their first k characters and then a is shorter or smaller. */
  predicate LessAt(a: string, b: string, k: nat) {
    && k <= |a| && k <= |b| && a[..k] == b[..k]
    && ((k == |a| < |b|) || (k < |a| && k < |b| && a[k] < b[k]))
  }

  /** Strict lexicographic order by character code: Go's `<` on ASCII strings. */
  predicate AsciiLess(a: string, b: string) {
    exists k: nat :: k <= |a| && LessAt(a, b, k)
  }

  lemma AsciiLessIrreflexive(a: string)
    ensures !AsciiLess(a, a)
  {
  }

  lemma AsciiLessTransitive(a: string, b: string, c: string)
    requires AsciiLess(a, b) && AsciiLess(b, c)
    ensures AsciiLess(a, c)
  {
    var i: nat :| i <= |a| && LessAt(a, b, i);
    var j: nat :| j <= |b| && LessAt(b, c, j);
    if i < j {
      assert b[..i] == b[..j][..i] == c[..j][..i] == c[..i];
      assert b[i] == c[i] by { assert b[..j][i] == c[..j][i]; }
      assert LessAt(a, c, i);
    } else if j < i {
      assert a[..j] == a[..i][..j] == b[..i][..j] == b[..j];
      assert a[j] == b[j] by { assert a[..i][j] == b[..i][j]; }
      assert LessAt(a, c, j);
    } else {
      assert LessAt(a, c, i);
    }
  }

  /** Every element from index i on is AsciiLess than its successor. */
  predicate AscendingFrom(s: seq<string>, i: nat) {
    forall j :: i <= j && j + 1 < |s| ==> AsciiLess(s[j], s[j + 1])
  }

  /** Every earlier element is AsciiLess than every later one. */
  predicate StrictlySorted(s: seq<string>) {
    forall i, j :: 0 <= i < j < |s| ==> AsciiLess(s[i], s[j])
  }

  predicate Distinct(s: seq<string>) {
    forall i, j :: 0 <= i < j < |s| ==> s[i] != s[j]
  }

  /** Checking adjacent pairs is enough: the order is transitive. */
  lemma {:induction false} AscendingFromIsSorted(s: seq<string>, i: nat)
    requires AscendingFrom(s, i)
    ensures forall j, k :: i <= j < k < |s| ==> AsciiLess(s[j], s[k])
    decreases |s| - i
  {
    if i + 1 < |s| {
      AscendingFromIsSorted(s, i + 1);
      forall k | i < k < |s| ensures AsciiLess(s[i], s[k]) {
        if k > i + 1 { AsciiLessTransitive(s[i], s[i + 1], s[k]); }
      }
    }
  }

  /** A strictly sorted list has no duplicates. */
  lemma SortedIsDistinct(s: seq<string>)
    requires StrictlySorted(s)
    ensures Distinct(s)
  {
    forall i, j | 0 <= i < j < |s| ensures s[i] != s[j] {
      AsciiLessIrreflexive(s[i]);
    }
  }

  /** Two ascending lists joined where the last of the first is below the first of the second. */
  lemma AscendingConcat(a: seq<string>, b: seq<string>)
    requires AscendingFrom(a, 0) && AscendingFrom(b, 0)
    requires |a| > 0 && |b| > 0 && AsciiLess(a[|a| - 1], b[0])
    ensures AscendingFrom(a + b, 0)
  {
    forall j | 0 <= j && j + 1 < |a + b| ensures AsciiLess((a + b)[j], (a + b)[j + 1]) {
      if j + 1 > |a| {
        assert (a + b)[j] == b[j - |a|] && (a + b)[j + 1] == b[j - |a| + 1];
      }
    }
  }

  // ---------------------------------------------------------------------------
  // The three catalogs, in declaration order

  // Each catalog is declared in a few consecutive parts so that each part can be
  // proved sorted on its own; the last argument of LessAt is the length of the
  // prefix two neighbouring tags share.

  const AccessProvidersPart0: seq<string> := ["acmehttpreq", "aliyun", "aws", "azure", "baiducloud", "byteplus", "cloudflare", "dogecloud"]
  const AccessProvidersPart1: seq<string> := ["edgio", "godaddy", "huaweicloud", "k8s", "local", "namedotcom", "namesilo", "ns1"]
  const AccessProvidersPart2: seq<string> := ["powerdns", "qiniu", "ssh", "tencentcloud", "ucloud", "volcengine", "webhook"]

  /** The AccessProviderType values, in declaration order. */
  const AccessProviders: seq<string> := AccessProvidersPart0 + AccessProvidersPart1 + AccessProvidersPart2

  lemma AccessProvidersPart0Ascends()
    ensures AscendingFrom(AccessProvidersPart0, 0)
  {
    forall j | 0 <= j && j + 1 < |AccessProvidersPart0| ensures AsciiLess(AccessProvidersPart0[j], AccessProvidersPart0[j + 1]) {
      if j == 0 { assert LessAt(AccessProvidersPart0[j], AccessProvidersPart0[j + 1], 1); } else if j == 1 { assert LessAt(AccessProvidersPart0[j], AccessProvidersPart0[j + 1], 1); } else if j == 2 { assert LessAt(AccessProvidersPart0[j], AccessProvidersPart0[j + 1], 1); } else if j == 3 { assert LessAt(AccessProvidersPart0[j], AccessProvidersPart0[j + 1], 0); } else if j == 4 { assert LessAt(AccessProvidersPart0[j], AccessProvidersPart0[j + 1], 1); } else if j == 5 { assert LessAt(AccessProvidersPart0[j], AccessProvidersPart0[j + 1], 0); } else { assert LessAt(AccessProvidersPart0[j], AccessProvidersPart0[j + 1], 0); }
    }
  }

  lemma AccessProvidersPart1Ascends()
    ensures AscendingFrom(AccessProvidersPart1, 0)
  {
    forall j | 0 <= j && j + 1 < |AccessProvidersPart1| ensures AsciiLess(AccessProvidersPart1[j], AccessProvidersPart1[j + 1]) {
      if j == 0 { assert LessAt(AccessProvidersPart1[j], AccessProvidersPart1[j + 1], 0); } else if j == 1 { assert LessAt(AccessProvidersPart1[j], AccessProvidersPart1[j + 1], 0); } else if j == 2 { assert LessAt(AccessProvidersPart1[j], AccessProvidersPart1[j + 1], 0); } else if j == 3 { assert LessAt(AccessProvidersPart1[j], AccessProvidersPart1[j + 1], 0); } else if j == 4 { assert LessAt(AccessProvidersPart1[j], AccessProvidersPart1[j + 1], 0); } else if j == 5 { assert LessAt(AccessProvidersPart1[j], AccessProvidersPart1[j + 1], 4); } else { assert LessAt(AccessProvidersPart1[j], AccessProvidersPart1[j + 1], 1); }
    }
  }

  lemma AccessProvidersPart2Ascends()
    ensures AscendingFrom(AccessProvidersPart2, 0)
  {
    forall j | 0 <= j && j + 1 < |AccessProvidersPart2| ensures AsciiLess(AccessProvidersPart2[j], AccessProvidersPart2[j + 1]) {
      if j == 0 { assert LessAt(AccessProvidersPart2[j], AccessProvidersPart2[j + 1], 0); } else if j == 1 { assert LessAt(AccessProvidersPart2[j], AccessProvidersPart2[j + 1], 0); } else if j == 2 { assert LessAt(AccessProvidersPart2[j], AccessProvidersPart2[j + 1], 0); } else if j == 3 { assert LessAt(AccessProvidersPart2[j], AccessProvidersPart2[j + 1], 0); } else if j == 4 { assert LessAt(AccessProvidersPart2[j], AccessProvidersPart2[j + 1], 0); } else { assert LessAt(AccessProvidersPart2[j], AccessProvidersPart2[j + 1], 0); }
    }
  }

  lemma AccessProvidersPart1FollowsOn()
    ensures AsciiLess(AccessProvidersPart0[|AccessProvidersPart0| - 1], AccessProvidersPart1[0])
  {
    assert LessAt(AccessProvidersPart0[|AccessProvidersPart0| - 1], AccessProvidersPart1[0], 0);
  }

  lemma AccessProvidersPart2FollowsOn()
    ensures AsciiLess(AccessProvidersPart1[|AccessProvidersPart1| - 1], AccessProvidersPart2[0])
  {
    assert LessAt(AccessProvidersPart1[|AccessProvidersPart1| - 1], AccessProvidersPart2[0], 0);
  }

  lemma AccessProvidersSorted()
    ensures StrictlySorted(AccessProviders) && Distinct(AccessProviders)
  {
    AccessProvidersPart0Ascends();
    AccessProvidersPart1Ascends();
    AccessProvidersPart2Ascends();
    AccessProvidersPart1FollowsOn();
    AscendingConcat(AccessProvidersPart0, AccessProvidersPart1);
    AccessProvidersPart2FollowsOn();
    AscendingConcat(AccessProvidersPart0 + AccessProvidersPart1, AccessProvidersPart2);
    AscendingFromIsSorted(AccessProviders, 0);
    SortedIsDistinct(AccessProviders);
  }

  const ApplyDnsProvidersPart0: seq<string> := ["acmehttpreq", "aliyun", "aliyun-dns", "aws", "aws-route53", "azure-dns"]
  const ApplyDnsProvidersPart1: seq<string> := ["cloudflare", "godaddy", "huaweicloud", "huaweicloud-dns", "namedotcom", "namesilo"]
  const ApplyDnsProvidersPart2: seq<string> := ["ns1", "powerdns", "tencentcloud", "tencentcloud-dns", "volcengine", "volcengine-dns"]

  /** The ApplyDNSProviderType values, in declaration order. */
  const ApplyDnsProviders: seq<string> := ApplyDnsProvidersPart0 + ApplyDnsProvidersPart1 + ApplyDnsProvidersPart2

  lemma ApplyDnsProvidersPart0Ascends()
    ensures AscendingFrom(ApplyDnsProvidersPart0, 0)
  {
    forall j | 0 <= j && j + 1 < |ApplyDnsProvidersPart0| ensures AsciiLess(ApplyDnsProvidersPart0[j], ApplyDnsProvidersPart0[j + 1]) {
      if j == 0 { assert LessAt(ApplyDnsProvidersPart0[j], ApplyDnsProvidersPart0[j + 1], 1); } else if j == 1 { assert LessAt(ApplyDnsProvidersPart0[j], ApplyDnsProvidersPart0[j + 1], 6); } else if j == 2 { assert LessAt(ApplyDnsProvidersPart0[j], ApplyDnsProvidersPart0[j + 1], 1); } else if j == 3 { assert LessAt(ApplyDnsProvidersPart0[j], ApplyDnsProvidersPart0[j + 1], 3); } else { assert LessAt(ApplyDnsProvidersPart0[j], ApplyDnsProvidersPart0[j + 1], 1); }
    }
  }

  lemma ApplyDnsProvidersPart1Ascends()
    ensures AscendingFrom(ApplyDnsProvidersPart1, 0)
  {
    forall j | 0 <= j && j + 1 < |ApplyDnsProvidersPart1| ensures AsciiLess(ApplyDnsProvidersPart1[j], ApplyDnsProvidersPart1[j + 1]) {
      if j == 0 { assert LessAt(ApplyDnsProvidersPart1[j], ApplyDnsProvidersPart1[j + 1], 0); } else if j == 1 { assert LessAt(ApplyDnsProvidersPart1[j], ApplyDnsProvidersPart1[j + 1], 0); } else if j == 2 { assert LessAt(ApplyDnsProvidersPart1[j], ApplyDnsProvidersPart1[j + 1], 11); } else if j == 3 { assert LessAt(ApplyDnsProvidersPart1[j], ApplyDnsProvidersPart1[j + 1], 0); } else { assert LessAt(ApplyDnsProvidersPart1[j], ApplyDnsProvidersPart1[j + 1], 4); }
    }
  }

  lemma ApplyDnsProvidersPart2Ascends()
    ensures AscendingFrom(ApplyDnsProvidersPart2, 0)
  {
    forall j | 0 <= j && j + 1 < |ApplyDnsProvidersPart2| ensures AsciiLess(ApplyDnsProvidersPart2[j], ApplyDnsProvidersPart2[j + 1]) {
      if j == 0 { assert LessAt(ApplyDnsProvidersPart2[j], ApplyDnsProvidersPart2[j + 1], 0); } else if j == 1 { assert LessAt(ApplyDnsProvidersPart2[j], ApplyDnsProvidersPart2[j + 1], 0); } else if j == 2 { assert LessAt(ApplyDnsProvidersPart2[j], ApplyDnsProvidersPart2[j + 1], 12); } else if j == 3 { assert LessAt(ApplyDnsProvidersPart2[j], ApplyDnsProvidersPart2[j + 1], 0); } else { assert LessAt(ApplyDnsProvidersPart2[j], ApplyDnsProvidersPart2[j + 1], 10); }
    }
  }

  lemma ApplyDnsProvidersPart1FollowsOn()
    ensures AsciiLess(ApplyDnsProvidersPart0[|ApplyDnsProvidersPart0| - 1], ApplyDnsProvidersPart1[0])
  {
    assert LessAt(ApplyDnsProvidersPart0[|ApplyDnsProvidersPart0| - 1], ApplyDnsProvidersPart1[0], 0);
  }

  lemma ApplyDnsProvidersPart2FollowsOn()
    ensures AsciiLess(ApplyDnsProvidersPart1[|ApplyDnsProvidersPart1| - 1], ApplyDnsProvidersPart2[0])
  {
    assert LessAt(ApplyDnsProvidersPart1[|ApplyDnsProvidersPart1| - 1], ApplyDnsProvidersPart2[0], 1);
  }

  lemma ApplyDnsProvidersSorted()
    ensures StrictlySorted(ApplyDnsProviders) && Distinct(ApplyDnsProviders)
  {
    ApplyDnsProvidersPart0Ascends();
    ApplyDnsProvidersPart1Ascends();
    ApplyDnsProvidersPart2Ascends();
    ApplyDnsProvidersPart1FollowsOn();
    AscendingConcat(ApplyDnsProvidersPart0, ApplyDnsProvidersPart1);
    ApplyDnsProvidersPart2FollowsOn();
    AscendingConcat(ApplyDnsProvidersPart0 + ApplyDnsProvidersPart1, ApplyDnsProvidersPart2);
    AscendingFromIsSorted(ApplyDnsProviders, 0);
    SortedIsDistinct(ApplyDnsProviders);
  }

  const DeployProvidersPart0: seq<string> := ["aliyun-alb", "aliyun-cdn", "aliyun-clb", "aliyun-dcdn", "aliyun-live", "aliyun-nlb", "aliyun-oss"]
  const DeployProvidersPart1: seq<string> := ["baiducloud-cdn", "byteplus-cdn", "dogecloud-cdn", "edgio-applications", "huaweicloud-cdn", "huaweicloud-elb", "k8s-secret"]
  const DeployProvidersPart2: seq<string> := ["local", "qiniu-cdn", "ssh", "tencentcloud-cdn", "tencentcloud-clb", "tencentcloud-cos", "tencentcloud-css"]
  const DeployProvidersPart3: seq<string> := ["tencentcloud-ecdn", "tencentcloud-eo", "ucloud-ucdn", "ucloud-us3", "volcengine-cdn", "volcengine-clb", "volcengine-dcdn"]
  const DeployProvidersPart4: seq<string> := ["volcengine-live", "volcengine-tos", "webhook"]

  /** The DeployProviderType values, in declaration order. */
  const DeployProviders: seq<string> := DeployProvidersPart0 + DeployProvidersPart1 + DeployProvidersPart2 + DeployProvidersPart3 + DeployProvidersPart4

  lemma DeployProvidersPart0Ascends()
    ensures AscendingFrom(DeployProvidersPart0, 0)
  {
    forall j | 0 <= j && j + 1 < |DeployProvidersPart0| ensures AsciiLess(DeployProvidersPart0[j], DeployProvidersPart0[j + 1]) {
      if j == 0 { assert LessAt(DeployProvidersPart0[j], DeployProvidersPart0[j + 1], 7); } else if j == 1 { assert LessAt(DeployProvidersPart0[j], DeployProvidersPart0[j + 1], 8); } else if j == 2 { assert LessAt(DeployProvidersPart0[j], DeployProvidersPart0[j + 1], 7); } else if j == 3 { assert LessAt(DeployProvidersPart0[j], DeployProvidersPart0[j + 1], 7); } else if j == 4 { assert LessAt(DeployProvidersPart0[j], DeployProvidersPart0[j + 1], 7); } else { assert LessAt(DeployProvidersPart0[j], DeployProvidersPart0[j + 1], 7); }
    }
  }

  lemma DeployProvidersPart1Ascends()
    ensures AscendingFrom(DeployProvidersPart1, 0)
  {
    forall j | 0 <= j && j + 1 < |DeployProvidersPart1| ensures AsciiLess(DeployProvidersPart1[j], DeployProvidersPart1[j + 1]) {
      if j == 0 { assert LessAt(DeployProvidersPart1[j], DeployProvidersPart1[j + 1], 1); } else if j == 1 { assert LessAt(DeployProvidersPart1[j], DeployProvidersPart1[j + 1], 0); } else if j == 2 { assert LessAt(DeployProvidersPart1[j], DeployProvidersPart1[j + 1], 0); } else if j == 3 { assert LessAt(DeployProvidersPart1[j], DeployProvidersPart1[j + 1], 0); } else if j == 4 { assert LessAt(DeployProvidersPart1[j], DeployProvidersPart1[j + 1], 12); } else { assert LessAt(DeployProvidersPart1[j], DeployProvidersPart1[j + 1], 0); }
    }
  }

  lemma DeployProvidersPart2Ascends()
    ensures AscendingFrom(DeployProvidersPart2, 0)
  {
    forall j | 0 <= j && j + 1 < |DeployProvidersPart2| ensures AsciiLess(DeployProvidersPart2[j], DeployProvidersPart2[j + 1]) {
      if j == 0 { assert LessAt(DeployProvidersPart2[j], DeployProvidersPart2[j + 1], 0); } else if j == 1 { assert LessAt(DeployProvidersPart2[j], DeployProvidersPart2[j + 1], 0); } else if j == 2 { assert LessAt(DeployProvidersPart2[j], DeployProvidersPart2[j + 1], 0); } else if j == 3 { assert LessAt(DeployProvidersPart2[j], DeployProvidersPart2[j + 1], 14); } else if j == 4 { assert LessAt(DeployProvidersPart2[j], DeployProvidersPart2[j + 1], 14); } else { assert LessAt(DeployProvidersPart2[j], DeployProvidersPart2[j + 1], 14); }
    }
  }

  lemma DeployProvidersPart3Ascends()
    ensures AscendingFrom(DeployProvidersPart3, 0)
  {
    forall j | 0 <= j && j + 1 < |DeployProvidersPart3| ensures AsciiLess(DeployProvidersPart3[j], DeployProvidersPart3[j + 1]) {
      if j == 0 { assert LessAt(DeployProvidersPart3[j], DeployProvidersPart3[j + 1], 14); } else if j == 1 { assert LessAt(DeployProvidersPart3[j], DeployProvidersPart3[j + 1], 0); } else if j == 2 { assert LessAt(DeployProvidersPart3[j], DeployProvidersPart3[j + 1], 8); } else if j == 3 { assert LessAt(DeployProvidersPart3[j], DeployProvidersPart3[j + 1], 0); } else if j == 4 { assert LessAt(DeployProvidersPart3[j], DeployProvidersPart3[j + 1], 12); } else { assert LessAt(DeployProvidersPart3[j], DeployProvidersPart3[j + 1], 11); }
    }
  }

  lemma DeployProvidersPart4Ascends()
    ensures AscendingFrom(DeployProvidersPart4, 0)
  {
    forall j | 0 <= j && j + 1 < |DeployProvidersPart4| ensures AsciiLess(DeployProvidersPart4[j], DeployProvidersPart4[j + 1]) {
      if j == 0 { assert LessAt(DeployProvidersPart4[j], DeployProvidersPart4[j + 1], 11); } else { assert LessAt(DeployProvidersPart4[j], DeployProvidersPart4[j + 1], 0); }
    }
  }

  lemma DeployProvidersPart1FollowsOn()
    ensures AsciiLess(DeployProvidersPart0[|DeployProvidersPart0| - 1], DeployProvidersPart1[0])
  {
    assert LessAt(DeployProvidersPart0[|DeployProvidersPart0| - 1], DeployProvidersPart1[0], 0);
  }

  lemma DeployProvidersPart2FollowsOn()
    ensures AsciiLess(DeployProvidersPart1[|DeployProvidersPart1| - 1], DeployProvidersPart2[0])
  {
    assert LessAt(DeployProvidersPart1[|DeployProvidersPart1| - 1], DeployProvidersPart2[0], 0);
  }

  lemma DeployProvidersPart3FollowsOn()
    ensures AsciiLess(DeployProvidersPart2[|DeployProvidersPart2| - 1], DeployProvidersPart3[0])
  {
    assert LessAt(DeployProvidersPart2[|DeployProvidersPart2| - 1], DeployProvidersPart3[0], 13);
  }

  lemma DeployProvidersPart4FollowsOn()
    ensures AsciiLess(DeployProvidersPart3[|DeployProvidersPart3| - 1], DeployProvidersPart4[0])
  {
    assert LessAt(DeployProvidersPart3[|DeployProvidersPart3| - 1], DeployProvidersPart4[0], 11);
  }

  lemma DeployProvidersSorted()
    ensures StrictlySorted(DeployProviders) && Distinct(DeployProviders)
  {
    DeployProvidersPart0Ascends();
    DeployProvidersPart1Ascends();
    DeployProvidersPart2Ascends();
    DeployProvidersPart3Ascends();
    DeployProvidersPart4Ascends();
    DeployProvidersPart1FollowsOn();
    AscendingConcat(DeployProvidersPart0, DeployProvidersPart1);
    DeployProvidersPart2FollowsOn();
    AscendingConcat(DeployProvidersPart0 + DeployProvidersPart1, DeployProvidersPart2);
    DeployProvidersPart3FollowsOn();
    AscendingConcat(DeployProvidersPart0 + DeployProvidersPart1 + DeployProvidersPart2, DeployProvidersPart3);
    DeployProvidersPart4FollowsOn();
    AscendingConcat(DeployProvidersPart0 + DeployProvidersPart1 + DeployProvidersPart2 + DeployProvidersPart3, DeployProvidersPart4);
    AscendingFromIsSorted(DeployProviders, 0);
    SortedIsDistinct(DeployProviders);
  }

  // ---------------------------------------------------------------------------
  // The access-provider prefix of DNS and deploy tags

  /** The text before the first dash, or the whole tag when it has none. */
  function BeforeDash(t: string): (p: string)
    ensures p <= t && '-' !in p
    ensures |p| < |t| ==> t[|p|] == '-'
    decreases |t|
  {
    if t == [] || t[0] == '-' then [] else [t[0]] + BeforeDash(t[1..])
  }

  /** t is the tag a itself, or a followed by a dash and more text. */
  predicate Extends(t: string, a: string) {
    a <= t && (|a| == |t| || t[|a|] == '-')
  }

  /** The part before the dash of an extension of a dashless tag is that tag. */
  lemma {:induction false} BeforeDashOfExtension(t: string, a: string)
    requires '-' !in a && Extends(t, a)
    ensures BeforeDash(t) == a
    decreases |a|
  {
    if a != [] {
      BeforeDashOfExtension(t[1..], a[1..]);
    }
  }

  /** From index i on, the part before the dash of every tag is an access provider. */
  predicate PrefixedFrom(s: seq<string>, i: nat) {
    forall j :: i <= j < |s| ==> BeforeDash(s[j]) in AccessProviders
  }

  lemma ApplyDnsProvidersPart0Prefixed()
    ensures forall t :: t in ApplyDnsProvidersPart0 ==> BeforeDash(t) in AccessProviders
  {
    forall j | 0 <= j < |ApplyDnsProvidersPart0| ensures BeforeDash(ApplyDnsProvidersPart0[j]) in AccessProviders {
      if j == 0 { BeforeDashOfExtension(ApplyDnsProvidersPart0[j], "acmehttpreq"); assert "acmehttpreq" in AccessProvidersPart0; } else if j == 1 { BeforeDashOfExtension(ApplyDnsProvidersPart0[j], "aliyun"); assert "aliyun" in AccessProvidersPart0; } else if j == 2 { BeforeDashOfExtension(ApplyDnsProvidersPart0[j], "aliyun"); assert "aliyun" in AccessProvidersPart0; } else if j == 3 { BeforeDashOfExtension(ApplyDnsProvidersPart0[j], "aws"); assert "aws" in AccessProvidersPart0; } else if j == 4 { BeforeDashOfExtension(ApplyDnsProvidersPart0[j], "aws"); assert "aws" in AccessProvidersPart0; } else { BeforeDashOfExtension(ApplyDnsProvidersPart0[j], "azure"); assert "azure" in AccessProvidersPart0; }
    }
  }

  lemma ApplyDnsProvidersPart1Prefixed()
    ensures forall t :: t in ApplyDnsProvidersPart1 ==> BeforeDash(t) in AccessProviders
  {
    forall j | 0 <= j < |ApplyDnsProvidersPart1| ensures BeforeDash(ApplyDnsProvidersPart1[j]) in AccessProviders {
      if j == 0 { BeforeDashOfExtension(ApplyDnsProvidersPart1[j], "cloudflare"); assert "cloudflare" in AccessProvidersPart0; } else if j == 1 { BeforeDashOfExtension(ApplyDnsProvidersPart1[j], "godaddy"); assert "godaddy" in AccessProvidersPart1; } else if j == 2 { BeforeDashOfExtension(ApplyDnsProvidersPart1[j], "huaweicloud"); assert "huaweicloud" in AccessProvidersPart1; } else if j == 3 { BeforeDashOfExtension(ApplyDnsProvidersPart1[j], "huaweicloud"); assert "huaweicloud" in AccessProvidersPart1; } else if j == 4 { BeforeDashOfExtension(ApplyDnsProvidersPart1[j], "namedotcom"); assert "namedotcom" in AccessProvidersPart1; } else { BeforeDashOfExtension(ApplyDnsProvidersPart1[j], "namesilo"); assert "namesilo" in AccessProvidersPart1; }
    }
  }

  lemma ApplyDnsProvidersPart2Prefixed()
    ensures forall t :: t in ApplyDnsProvidersPart2 ==> BeforeDash(t) in AccessProviders
  {
    forall j | 0 <= j < |ApplyDnsProvidersPart2| ensures BeforeDash(ApplyDnsProvidersPart2[j]) in AccessProviders {
      if j == 0 { BeforeDashOfExtension(ApplyDnsProvidersPart2[j], "ns1"); assert "ns1" in AccessProvidersPart1; } else if j == 1 { BeforeDashOfExtension(ApplyDnsProvidersPart2[j], "powerdns"); assert "powerdns" in AccessProvidersPart2; } else if j == 2 { BeforeDashOfExtension(ApplyDnsProvidersPart2[j], "tencentcloud"); assert "tencentcloud" in AccessProvidersPart2; } else if j == 3 { BeforeDashOfExtension(ApplyDnsProvidersPart2[j], "tencentcloud"); assert "tencentcloud" in AccessProvidersPart2; } else if j == 4 { BeforeDashOfExtension(ApplyDnsProvidersPart2[j], "volcengine"); assert "volcengine" in AccessProvidersPart2; } else { BeforeDashOfExtension(ApplyDnsProvidersPart2[j], "volcengine"); assert "volcengine" in AccessProvidersPart2; }
    }
  }

  lemma DnsTagsStartWithAccessProvider()
    ensures forall t :: t in ApplyDnsProviders ==> BeforeDash(t) in AccessProviders
  {
    ApplyDnsProvidersPart0Prefixed();
    ApplyDnsProvidersPart1Prefixed();
    ApplyDnsProvidersPart2Prefixed();
  }

  lemma DeployProvidersPart0Prefixed()
    ensures forall t :: t in DeployProvidersPart0 ==> BeforeDash(t) in AccessProviders
  {
    forall j | 0 <= j < |DeployProvidersPart0| ensures BeforeDash(DeployProvidersPart0[j]) in AccessProviders {
      if j == 0 { BeforeDashOfExtension(DeployProvidersPart0[j], "aliyun"); assert "aliyun" in AccessProvidersPart0; } else if j == 1 { BeforeDashOfExtension(DeployProvidersPart0[j], "aliyun"); assert "aliyun" in AccessProvidersPart0; } else if j == 2 { BeforeDashOfExtension(DeployProvidersPart0[j], "aliyun"); assert "aliyun" in AccessProvidersPart0; } else if j == 3 { BeforeDashOfExtension(DeployProvidersPart0[j], "aliyun"); assert "aliyun" in AccessProvidersPart0; } else if j == 4 { BeforeDashOfExtension(DeployProvidersPart0[j], "aliyun"); assert "aliyun" in AccessProvidersPart0; } else if j == 5 { BeforeDashOfExtension(DeployProvidersPart0[j], "aliyun"); assert "aliyun" in AccessProvidersPart0; } else { BeforeDashOfExtension(DeployProvidersPart0[j], "aliyun"); assert "aliyun" in AccessProvidersPart0; }
    }
  }

  lemma DeployProvidersPart1Prefixed()
    ensures forall t :: t in DeployProvidersPart1 ==> BeforeDash(t) in AccessProviders
  {
    forall j | 0 <= j < |DeployProvidersPart1| ensures BeforeDash(DeployProvidersPart1[j]) in AccessProviders {
      if j == 0 { BeforeDashOfExtension(DeployProvidersPart1[j], "baiducloud"); assert "baiducloud" in AccessProvidersPart0; } else if j == 1 { BeforeDashOfExtension(DeployProvidersPart1[j], "byteplus"); assert "byteplus" in AccessProvidersPart0; } else if j == 2 { BeforeDashOfExtension(DeployProvidersPart1[j], "dogecloud"); assert "dogecloud" in AccessProvidersPart0; } else if j == 3 { BeforeDashOfExtension(DeployProvidersPart1[j], "edgio"); assert "edgio" in AccessProvidersPart1; } else if j == 4 { BeforeDashOfExtension(DeployProvidersPart1[j], "huaweicloud"); assert "huaweicloud" in AccessProvidersPart1; } else if j == 5 { BeforeDashOfExtension(DeployProvidersPart1[j], "huaweicloud"); assert "huaweicloud" in AccessProvidersPart1; } else { BeforeDashOfExtension(DeployProvidersPart1[j], "k8s"); assert "k8s" in AccessProvidersPart1; }
    }
  }

  lemma DeployProvidersPart2Prefixed()
    ensures forall t :: t in DeployProvidersPart2 ==> BeforeDash(t) in AccessProviders
  {
    forall j | 0 <= j < |DeployProvidersPart2| ensures BeforeDash(DeployProvidersPart2[j]) in AccessProviders {
      if j == 0 { BeforeDashOfExtension(DeployProvidersPart2[j], "local"); assert "local" in AccessProvidersPart1; } else if j == 1 { BeforeDashOfExtension(DeployProvidersPart2[j], "qiniu"); assert "qiniu" in AccessProvidersPart2; } else if j == 2 { BeforeDashOfExtension(DeployProvidersPart2[j], "ssh"); assert "ssh" in AccessProvidersPart2; } else if j == 3 { BeforeDashOfExtension(DeployProvidersPart2[j], "tencentcloud"); assert "tencentcloud" in AccessProvidersPart2; } else if j == 4 { BeforeDashOfExtension(DeployProvidersPart2[j], "tencentcloud"); assert "tencentcloud" in AccessProvidersPart2; } else if j == 5 { BeforeDashOfExtension(DeployProvidersPart2[j], "tencentcloud"); assert "tencentcloud" in AccessProvidersPart2; } else { BeforeDashOfExtension(DeployProvidersPart2[j], "tencentcloud"); assert "tencentcloud" in AccessProvidersPart2; }
    }
  }

  lemma DeployProvidersPart3Prefixed()
    ensures forall t :: t in DeployProvidersPart3 ==> BeforeDash(t) in AccessProviders
  {
    forall j | 0 <= j < |DeployProvidersPart3| ensures BeforeDash(DeployProvidersPart3[j]) in AccessProviders {
      if j == 0 { BeforeDashOfExtension(DeployProvidersPart3[j], "tencentcloud"); assert "tencentcloud" in AccessProvidersPart2; } else if j == 1 { BeforeDashOfExtension(DeployProvidersPart3[j], "tencentcloud"); assert "tencentcloud" in AccessProvidersPart2; } else if j == 2 { BeforeDashOfExtension(DeployProvidersPart3[j], "ucloud"); assert "ucloud" in AccessProvidersPart2; } else if j == 3 { BeforeDashOfExtension(DeployProvidersPart3[j], "ucloud"); assert "ucloud" in AccessProvidersPart2; } else if j == 4 { BeforeDashOfExtension(DeployProvidersPart3[j], "volcengine"); assert "volcengine" in AccessProvidersPart2; } else if j == 5 { BeforeDashOfExtension(DeployProvidersPart3[j], "volcengine"); assert "volcengine" in AccessProvidersPart2; } else { BeforeDashOfExtension(DeployProvidersPart3[j], "volcengine"); assert "volcengine" in AccessProvidersPart2; }
    }
  }

  lemma DeployProvidersPart4Prefixed()
    ensures forall t :: t in DeployProvidersPart4 ==> BeforeDash(t) in AccessProviders
  {
    forall j | 0 <= j < |DeployProvidersPart4| ensures BeforeDash(DeployProvidersPart4[j]) in AccessProviders {
      if j == 0 { BeforeDashOfExtension(DeployProvidersPart4[j], "volcengine"); assert "volcengine" in AccessProvidersPart2; } else if j == 1 { BeforeDashOfExtension(DeployProvidersPart4[j], "volcengine"); assert "volcengine" in AccessProvidersPart2; } else { BeforeDashOfExtension(DeployProvidersPart4[j], "webhook"); assert "webhook" in AccessProvidersPart2; }
    }
  }

  lemma DeployTagsStartWithAccessProvider()
    ensures forall t :: t in DeployProviders ==> BeforeDash(t) in AccessProviders
  {
    DeployProvidersPart0Prefixed();
    DeployProvidersPart1Prefixed();
    DeployProvidersPart2Prefixed();
    DeployProvidersPart3Prefixed();
    DeployProvidersPart4Prefixed();
  }

  // ---------------------------------------------------------------------------
  // Legacy DNS tags

  /**
   * The equivalence the catalog documents: five legacy tags stand for a canonical
   * dashed tag; every other string is its own canonical form.
   */
  function NormalizeDns(t: string): (r: string)
    ensures r != t ==> '-' !in t && '-' in r && |t| < |r|
  {
    if t == "aliyun" then "aliyun-dns"
    else if t == "aws" then "aws-route53"
    else if t == "huaweicloud" then "huaweicloud-dns"
    else if t == "tencentcloud" then "tencentcloud-dns"
    else if t == "volcengine" then "volcengine-dns"
    else t
  }

  /** Normalising a catalog tag yields a catalog tag. */
  lemma NormalizeDnsStaysInCatalog(t: string)
    requires t in ApplyDnsProviders
    ensures NormalizeDns(t) in ApplyDnsProviders
  {
  }

  lemma NormalizeDnsIdempotent(t: string)
    ensures NormalizeDns(NormalizeDns(t)) == NormalizeDns(t)
  {
  }

  /** Only the five legacy tags move, and each legacy tag and its canonical form are in the catalog. */
  lemma NormalizeDnsMovesLegacyTags(t: string)
    requires NormalizeDns(t) != t
    ensures t in ApplyDnsProviders && NormalizeDns(t) in ApplyDnsProviders
  {
    if t == "aliyun" || t == "aws" {
      assert t in ApplyDnsProvidersPart0 && NormalizeDns(t) in ApplyDnsProvidersPart0;
    } else if t == "huaweicloud" {
      assert t in ApplyDnsProvidersPart1 && NormalizeDns(t) in ApplyDnsProvidersPart1;
    } else {
      assert t in ApplyDnsProvidersPart2 && NormalizeDns(t) in ApplyDnsProvidersPart2;
    }
  }

  /** A legacy tag has no dash, and its canonical form extends it with a dash. */
  lemma NormalizeDnsExtendsLegacyTags(t: string)
    requires NormalizeDns(t) != t
    ensures '-' !in t && Extends(NormalizeDns(t), t) && |t| < |NormalizeDns(t)|
  {
  }

  /** Normalising never changes the access provider a DNS tag belongs to. */
  lemma NormalizeDnsKeepsPrefix(t: string)
    ensures BeforeDash(NormalizeDns(t)) == BeforeDash(t)
  {
    if NormalizeDns(t) != t {
      NormalizeDnsExtendsLegacyTags(t);
      BeforeDashOfExtension(t, t);
      BeforeDashOfExtension(NormalizeDns(t), t);
    }
  }
}

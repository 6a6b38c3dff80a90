/** The seven-field cache key and the one string it is joined into. */
module CacheKey {

  datatype CertificateCacheKey = CertificateCacheKey(
    identity: string,
    profileName: string,
    profileHash: string,
    publicKeySha256: string,
    issuerName: string,
    issuerDirectory: string,
    issuerAccountKeyId: string)
  {
    function Fields(): seq<string> {
      [identity, profileName, profileHash, publicKeySha256, issuerName, issuerDirectory, issuerAccountKeyId]
    }

    function String(): string {
      JoinNul(Fields())
    }

    ghost predicate NulFree() {
      forall f :: f in Fields() ==> '\0' !in f
    }
  }

  function JoinNul(fields: seq<string>): string {
    if |fields| == 0 then ""
    else if |fields| == 1 then fields[0]
    else fields[0] + "\0" + JoinNul(fields[1..])
  }

  /** The part before the first NUL can be read back. */
  lemma FirstField(a: string, x: string, b: string, y: string)
    requires '\0' !in a && '\0' !in b && a + "\0" + x == b + "\0" + y
    ensures a == b && x == y
  {
    var s := a + "\0" + x;
    assert s[|a|] == '\0' && s[|b|] == '\0';
    assert forall i :: 0 <= i < |a| ==> s[i] == a[i] && s[i] in a;
    assert forall i :: 0 <= i < |b| ==> s[i] == b[i] && s[i] in b;
    assert s[..|a|] == a && s[..|b|] == b;
    assert s[|a| + 1..] == x && s[|b| + 1..] == y;
  }

  /** Joining loses nothing as long as no field but the last contains a NUL. */
  lemma {:induction false} JoinNulInjective(a: seq<string>, b: seq<string>)
    requires |a| == |b|
    requires forall i :: 0 <= i < |a| - 1 ==> '\0' !in a[i] && '\0' !in b[i]
    requires JoinNul(a) == JoinNul(b)
    ensures a == b
  {
    if |a| > 1 {
      FirstField(a[0], JoinNul(a[1..]), b[0], JoinNul(b[1..]));
      JoinNulInjective(a[1..], b[1..]);
      assert a == [a[0]] + a[1..] && b == [b[0]] + b[1..];
    } else if |a| == 1 {
      assert a == [a[0]] && b == [b[0]];
    }
  }

  lemma StringInjective(k: CertificateCacheKey, m: CertificateCacheKey)
    requires k.NulFree() && m.NulFree() && k.String() == m.String()
    ensures k == m
  {
    forall i | 0 <= i < 7 ensures '\0' !in k.Fields()[i] && '\0' !in m.Fields()[i] {
      assert k.Fields()[i] in k.Fields() && m.Fields()[i] in m.Fields();
    }
    JoinNulInjective(k.Fields(), m.Fields());
    assert k.Fields()[0] == m.Fields()[0] && k.Fields()[1] == m.Fields()[1] && k.Fields()[2] == m.Fields()[2]
        && k.Fields()[3] == m.Fields()[3] && k.Fields()[4] == m.Fields()[4] && k.Fields()[5] == m.Fields()[5]
        && k.Fields()[6] == m.Fields()[6];
  }

  /** What follows the profile name. */
  function Tail(k: CertificateCacheKey): string {
    var issuer := k.issuerName + "\0" + (k.issuerDirectory + "\0" + k.issuerAccountKeyId);
    k.profileHash + "\0" + (k.publicKeySha256 + "\0" + issuer)
  }

  lemma StringShape(k: CertificateCacheKey)
    ensures k.String() == k.identity + "\0" + (k.profileName + "\0" + Tail(k))
  {
    var f := k.Fields();
    assert f[1..][0] == f[1] && f[1..][1..] == f[2..];
    assert f[2..][1..] == f[3..] && f[3..][1..] == f[4..] && f[4..][1..] == f[5..] && f[5..][1..] == f[6..];
    assert JoinNul(f[6..]) == f[6];
    assert JoinNul(f[5..]) == f[5] + "\0" + JoinNul(f[6..]);
    assert JoinNul(f[4..]) == f[4] + "\0" + JoinNul(f[5..]);
    assert JoinNul(f[3..]) == f[3] + "\0" + JoinNul(f[4..]);
    assert JoinNul(f[2..]) == f[2] + "\0" + JoinNul(f[3..]) == Tail(k);
    assert JoinNul(f[1..]) == f[1] + "\0" + JoinNul(f[2..]);
  }

  lemma SplitAtEqualLength(a: string, x: string, b: string, y: string)
    requires |a| == |b| && a + x == b + y
    ensures a == b && x == y
  {
    assert (a + x)[..|a|] == a && (b + y)[..|b|] == b;
    assert (a + x)[|a|..] == x && (b + y)[|b|..] == y;
  }

  /**
   Whatever the identity and the profile name contain, two keys of one issuer with digests of
   one length cannot share a string unless they share both digests: the digests can be read off
   from the end.
   */
  lemma SameStringSameDigests(k: CertificateCacheKey, m: CertificateCacheKey)
    requires k.String() == m.String()
    requires |k.profileHash| == |m.profileHash| && |k.publicKeySha256| == |m.publicKeySha256|
    requires k.issuerName == m.issuerName && k.issuerDirectory == m.issuerDirectory
    requires k.issuerAccountKeyId == m.issuerAccountKeyId
    ensures k.profileHash == m.profileHash && k.publicKeySha256 == m.publicKeySha256
    ensures k.identity + "\0" + k.profileName == m.identity + "\0" + m.profileName
  {
    StringShape(k);
    StringShape(m);
    var headK, headM := k.identity + "\0" + k.profileName, m.identity + "\0" + m.profileName;
    var restK, restM := "\0" + Tail(k), "\0" + Tail(m);
    assert k.String() == headK + restK && m.String() == headM + restM;
    assert |restK| == |restM|;
    hide CertificateCacheKey.String;
    SplitAtEqualLength(headK, restK, headM, restM);
    assert restK[1..] == Tail(k) && restM[1..] == Tail(m);
    TailsSplit(k, m);
  }

  lemma TailsSplit(k: CertificateCacheKey, m: CertificateCacheKey)
    requires Tail(k) == Tail(m)
    requires |k.profileHash| == |m.profileHash| && |k.publicKeySha256| == |m.publicKeySha256|
    ensures k.profileHash == m.profileHash && k.publicKeySha256 == m.publicKeySha256
  {
    var restK := k.publicKeySha256 + "\0" + (k.issuerName + "\0" + (k.issuerDirectory + "\0" + k.issuerAccountKeyId));
    var restM := m.publicKeySha256 + "\0" + (m.issuerName + "\0" + (m.issuerDirectory + "\0" + m.issuerAccountKeyId));
    assert Tail(k) == k.profileHash + ("\0" + restK) && Tail(m) == m.profileHash + ("\0" + restM);
    SplitAtEqualLength(k.profileHash, "\0" + restK, m.profileHash, "\0" + restM);
    SplitAtEqualLength("\0", restK, "\0", restM);
    assert restK[..|k.publicKeySha256|] == k.publicKeySha256 && restM[..|m.publicKeySha256|] == m.publicKeySha256;
  }

  /** Keys as one broker makes them: one issuer, and digests of one length each. */
  ghost predicate OneIssuer(k: CertificateCacheKey, m: CertificateCacheKey) {
    && |k.profileHash| == |m.profileHash| && |k.publicKeySha256| == |m.publicKeySha256|
    && k.issuerName == m.issuerName && k.issuerDirectory == m.issuerDirectory
    && k.issuerAccountKeyId == m.issuerAccountKeyId
  }

  /** Two keys of one broker share a string exactly when they share their digests and read alike up to them. */
  lemma SameStringExactly(k: CertificateCacheKey, m: CertificateCacheKey)
    requires OneIssuer(k, m)
    ensures k.String() == m.String()
            <==> && k.profileHash == m.profileHash && k.publicKeySha256 == m.publicKeySha256
                 && k.identity + "\0" + k.profileName == m.identity + "\0" + m.profileName
  {
    if k.String() == m.String() {
      SameStringSameDigests(k, m);
    }
    if k.profileHash == m.profileHash && k.publicKeySha256 == m.publicKeySha256
       && k.identity + "\0" + k.profileName == m.identity + "\0" + m.profileName
    {
      StringShape(k);
      StringShape(m);
      assert k.String() == (k.identity + "\0" + k.profileName) + ("\0" + Tail(k));
      assert m.String() == (m.identity + "\0" + m.profileName) + ("\0" + Tail(m));
    }
  }
}

/**
 * What the ads client and the credential script share: the five credential
 * values, Python's prefix slice, and the dash removal both apply to the login
 * customer id (`replace('-', '')`).
 */
module Credentials {
  /** The five values the client and the script read from the environment. */
  datatype CredentialSet = CredentialSet(
    clientId: string,
    clientSecret: string,
    developerToken: string,
    loginCustomerId: string,
    refreshToken: string)

  /** Python's `text[:k]` for a non-negative `k`: clamps at the length. */
  function Head(text: string, k: nat): (r: string)
  {
    if k >= |text| then text else text[..k]
  }

  /** `s.replace('-', '')`. */
  function StripDashes(s: string): (r: string)
    ensures '-' !in r
    ensures |r| <= |s|
    ensures forall c :: c in r <==> c in s && c != '-'
  {
    if s == "" then ""
    else (if s[0] == '-' then "" else [s[0]]) + StripDashes(s[1..])
  }

  /** Removing dashes works piece by piece. */
  lemma {:induction false} StripDashesAppend(a: string, b: string)
    ensures StripDashes(a + b) == StripDashes(a) + StripDashes(b)
  {
    if a == "" {
      assert a + b == b;
    } else {
      assert (a + b)[0] == a[0];
      assert (a + b)[1..] == a[1..] + b;
      StripDashesAppend(a[1..], b);
    }
  }

  /** A string without dashes is left as it is. */
  lemma {:induction false} StripDashesNoDash(s: string)
    requires '-' !in s
    ensures StripDashes(s) == s
  {
    if s != "" {
      assert s[0] in s;
      assert forall c :: c in s[1..] ==> c in s;
      StripDashesNoDash(s[1..]);
    }
  }

  /** Nothing is left after removing the dashes exactly when the string is all dashes. */
  lemma StripDashesEmpty(s: string)
    ensures StripDashes(s) == "" <==> forall i :: 0 <= i < |s| ==> s[i] == '-'
  {
    var r := StripDashes(s);
    if r != "" {
      assert r[0] in r;
    }
    if exists i :: 0 <= i < |s| && s[i] != '-' {
      var i :| 0 <= i < |s| && s[i] != '-';
      assert s[i] in s;
      assert s[i] in r;
    }
  }

  /** Removing dashes twice is removing them once. */
  lemma StripDashesIdempotent(s: string)
    ensures StripDashes(StripDashes(s)) == StripDashes(s)
  {
    StripDashesNoDash(StripDashes(s));
  }

  /** A dash after a dash-free part disappears and leaves the part as it is. */
  lemma StripDashesSkipsDash(x: string, y: string)
    requires '-' !in x
    ensures StripDashes(x + "-" + y) == x + StripDashes(y)
  {
    assert StripDashes("-") == "" by {
      assert "-"[0] == '-' && "-"[1..] == "";
    }
    StripDashesAppend(x, "-");
    StripDashesNoDash(x);
    assert StripDashes(x + "-") == x by {
      assert x + "" == x;
    }
    StripDashesAppend(x + "-", y);
  }
}

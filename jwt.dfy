/** JwtUtils.extractEmail: strip the bearer prefix, verify the token, read its subject, and fall
    back to a fixed identity on any failure. Signature checking itself is a parameter. */
module Jwt {
  import opened Errors

  /** What the JWT library reports for a token: its subject claim (absent claims read as null),
      or a failure (bad signature, malformed or expired token). */
  datatype Verification = Verified(subject: Option<string>) | Rejected

  const BearerPrefix: string := "Bearer "

  /** Identity recorded when the token does not verify. */
  const Anonymous: string := "anonimo"

  /** Java's `String.replace(target, replacement)`: one left-to-right pass that replaces every
      non-overlapping occurrence of `target`. */
  function ReplaceAll(s: string, target: string, replacement: string): (r: string)
    requires |target| > 0
    decreases |s|
  {
    if |s| < |target| then s
    else if s[..|target|] == target then replacement + ReplaceAll(s[|target|..], target, replacement)
    else [s[0]] + ReplaceAll(s[1..], target, replacement)
  }

  /** A string in which `target` does not occur is left as it is. */
  lemma {:induction false} ReplaceAbsent(s: string, target: string, replacement: string)
    requires |target| > 0
    requires !Contains(s, target)
    ensures ReplaceAll(s, target, replacement) == s
  {
    if |s| >= |target| {
      assert !OccursAt(s, target, 0);
      assert s[..|target|] != target;
      forall i | OccursAt(s[1..], target, i) ensures OccursAt(s, target, i + 1) {
        assert s[1..][i..i + |target|] == s[i + 1..i + 1 + |target|];
      }
      ReplaceAbsent(s[1..], target, replacement);
    }
  }

  /** The pass replaces the first occurrence and goes on after it: when `target` starts nowhere
      inside `a` (not even overlapping into the occurrence that follows it), the result is `a`,
      the replacement, and the rest of the pass over `b`. */
  lemma {:induction false} ReplaceFirstOccurrence(a: string, target: string, replacement: string, b: string)
    requires |target| > 0
    requires forall i :: 0 <= i < |a| ==> !OccursAt(a + target + b, target, i)
    ensures ReplaceAll(a + target + b, target, replacement) == a + replacement + ReplaceAll(b, target, replacement)
  {
    var s := a + target + b;
    if a == [] {
      assert s == target + b;
      assert s[..|target|] == target;
      assert s[|target|..] == b;
    } else {
      assert !OccursAt(s, target, 0);
      assert s[..|target|] != target;
      assert s[1..] == a[1..] + target + b;
      forall i | 0 <= i < |a[1..]| ensures !OccursAt(a[1..] + target + b, target, i) {
        assert !OccursAt(s, target, i + 1);
        assert s[1..][i..i + |target|] == s[i + 1..i + 1 + |target|];
      }
      ReplaceFirstOccurrence(a[1..], target, replacement, b);
      assert [s[0]] + (a[1..] + replacement + ReplaceAll(b, target, replacement))
          == a + replacement + ReplaceAll(b, target, replacement);
    }
  }

  /** The single pass does not rescan its output: removing the inner "Bearer " from
      "BeBearer arer " leaves a new "Bearer ". */
  lemma SinglePassMayLeavePrefix()
    ensures ReplaceAll("BeBearer arer ", BearerPrefix, "") == BearerPrefix
  {
    var s := "BeBearer arer ";
    assert s[..7][2] == 'B' != BearerPrefix[2];
    assert s[1..][..7][0] == 'e' != BearerPrefix[0];
    assert s[2..] == BearerPrefix + "arer ";
    assert s[2..][..7] == BearerPrefix;
    assert s[2..][7..] == "arer ";
    assert ReplaceAll("arer ", BearerPrefix, "") == "arer ";
  }

  /** `extractEmail(token)`: the token's subject, or "anonimo" when verification fails. */
  function ExtractEmail(token: string, verify: string -> Verification): (r: Option<string>)
    ensures verify(ReplaceAll(token, BearerPrefix, "")).Rejected? ==> r == Some(Anonymous)
    ensures verify(ReplaceAll(token, BearerPrefix, "")).Verified? ==> r == verify(ReplaceAll(token, BearerPrefix, "")).subject
  {
    var clean := ReplaceAll(token, BearerPrefix, "");
    match verify(clean)
    case Verified(subject) => subject
    case Rejected => Some(Anonymous)
  }

  /** A header "Bearer <jwt>" hands exactly the token to the verifier, when the token itself does
      not contain the prefix. */
  lemma BearerHeaderYieldsToken(jwt: string)
    requires !Contains(jwt, BearerPrefix)
    ensures ReplaceAll(BearerPrefix + jwt, BearerPrefix, "") == jwt
  {
    assert BearerPrefix + jwt == [] + BearerPrefix + jwt;
    ReplaceFirstOccurrence([], BearerPrefix, "", jwt);
    ReplaceAbsent(jwt, BearerPrefix, "");
  }
}

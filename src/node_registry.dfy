/**
 * The hospital node registry page (frontend/src/pages/NodeRegistry.jsx):
 * the suspicious-name test, the status shown for each registered node,
 * the demo public-key generator and the registration form's state. The
 * random hex digits and the server's answers are parameters.
 */
module NodeRegistry {
  import opened Wrappers
  import opened Text

  const SuspiciousKeywords: seq<string> := ["hacker", "fake", "test", "malicious", "spam", "fraud"]

  /** Some keyword of `keywords` occurs in `s`. */
  predicate AnyContained(s: string, keywords: seq<string>)
  {
    exists k :: k in keywords && Contains(s, k)
  }

  /** `keywords.some(k => s.includes(k))`, scanning the list in order. */
  function SomeContained(s: string, keywords: seq<string>): (b: bool)
    ensures b <==> AnyContained(s, keywords)
  {
    if keywords == [] then false
    else Contains(s, keywords[0]) || SomeContained(s, keywords[1..])
  }

  /** `isSuspicious`: the lower-cased name contains one of the six keywords. */
  function IsSuspicious(name: string): (b: bool)
    ensures b <==> exists k :: k in SuspiciousKeywords && Contains(Lower(name), k)
  {
    SomeContained(Lower(name), SuspiciousKeywords)
  }

  /** The test ignores case: a name and its lower-cased form are flagged alike. */
  lemma SuspiciousIgnoresCase(name: string)
    ensures IsSuspicious(Lower(name)) == IsSuspicious(name)
  {
    LowerIdempotent(name);
  }

  /** Lower-casing distributes over concatenation. */
  lemma LowerAppend(a: string, b: string)
    ensures Lower(a + b) == Lower(a) + Lower(b)
  {
    var l, r := Lower(a + b), Lower(a) + Lower(b);
    assert |l| == |r|;
    forall i | 0 <= i < |l| ensures l[i] == r[i] {
      if i < |a| { assert (a + b)[i] == a[i]; } else { assert (a + b)[i] == b[i - |a|]; }
    }
  }

  /** A needle found in `s` is still found when text is added on either side. */
  lemma ContainsWithin(pre: string, s: string, post: string, needle: string)
    requires Contains(s, needle)
    ensures Contains(pre + s + post, needle)
  {
    ContainsIffOccurs(s, needle);
    var i :| OccursAt(s, needle, i);
    var t := pre + s + post;
    assert t[|pre| + i..|pre| + i + |needle|] == s[i..i + |needle|];
    assert OccursAt(t, needle, |pre| + i);
    ContainsIffOccurs(t, needle);
  }

  /** Wrapping a suspicious name in more text never clears the flag. */
  lemma SuspiciousKeptInLongerName(pre: string, name: string, post: string)
    requires IsSuspicious(name)
    ensures IsSuspicious(pre + name + post)
  {
    var k :| k in SuspiciousKeywords && Contains(Lower(name), k);
    LowerAppend(pre + name, post);
    LowerAppend(pre, name);
    ContainsWithin(Lower(pre), Lower(name), Lower(post), k);
  }

  datatype Status = Unverified | Suspicious | Verified

  /** The status cell: unverified nodes first, then the name test. */
  function StatusOf(isVerified: bool, name: string): (s: Status)
    ensures s == Unverified <==> !isVerified
    ensures s == Suspicious <==> isVerified && IsSuspicious(name)
    ensures s == Verified <==> isVerified && !IsSuspicious(name)
  {
    if !isVerified then Unverified else if IsSuspicious(name) then Suspicious else Verified
  }

  /** `d.toString(16)` for one digit: lower-case hex. */
  function HexDigit(d: nat): (c: char)
    requires d < 16
    ensures '0' <= c <= '9' || 'a' <= c <= 'f'
  {
    if d < 10 then ('0' as int + d) as char else ('a' as int + d - 10) as char
  }

  predicate IsHexDigit(c: char)
  {
    '0' <= c <= '9' || 'a' <= c <= 'f'
  }

  /** The digit a lower-case hex character stands for. */
  function HexValue(c: char): (d: nat)
    requires IsHexDigit(c)
    ensures d < 16
  {
    if c <= '9' then c as int - '0' as int else c as int - 'a' as int + 10
  }

  /** The joined digits of the key. */
  function HexString(digits: seq<nat>): (s: string)
    requires forall i :: 0 <= i < |digits| ==> digits[i] < 16
    ensures |s| == |digits|
    ensures forall i :: 0 <= i < |s| ==> IsHexDigit(s[i])
  {
    if digits == [] then [] else [HexDigit(digits[0])] + HexString(digits[1..])
  }

  function DecodeHex(s: string): (digits: seq<nat>)
    requires forall i :: 0 <= i < |s| ==> IsHexDigit(s[i])
    ensures |digits| == |s|
  {
    if s == [] then [] else [HexValue(s[0])] + DecodeHex(s[1..])
  }

  /** The key's characters give back exactly the digits drawn. */
  lemma {:induction false} HexRoundTrip(digits: seq<nat>)
    requires forall i :: 0 <= i < |digits| ==> digits[i] < 16
    ensures DecodeHex(HexString(digits)) == digits
  {
    if digits != [] {
      HexRoundTrip(digits[1..]);
      assert HexString(digits)[1..] == HexString(digits[1..]);
    }
  }

  /** A listed node as the chain reports it. */
  datatype NodeRow = NodeRow(nodeId: string, hospitalName: string, isVerified: bool)

  /** How a registration request ended. */
  datatype RegisterOutcome = Registered(transactionHash: string) | Refused(detail: string) | Thrown(message: string)

  class Registry {
    var nodes: seq<NodeRow>
    var loading: bool
    var nodeId: string
    var hospitalName: string
    var publicKey: string

    constructor()
      ensures nodes == [] && !loading
      ensures nodeId == "" && hospitalName == "" && publicKey == ""
    {
      nodes := [];
      loading := false;
      nodeId := "";
      hospitalName := "";
      publicKey := "";
    }

    /**
     * `generatePublicKey`: "0x" and one lower-case hex digit per draw of
     * `Math.floor(Math.random() * 16)`; the other two fields stay as typed.
     */
    method GeneratePublicKey(digits: seq<nat>)
      requires |digits| == 64
      requires forall i :: 0 <= i < |digits| ==> digits[i] < 16
      modifies this
      ensures publicKey == "0x" + HexString(digits)
      ensures |publicKey| == 66 && publicKey[..2] == "0x"
      ensures forall i :: 2 <= i < |publicKey| ==> IsHexDigit(publicKey[i])
      ensures nodeId == old(nodeId) && hospitalName == old(hospitalName)
      ensures nodes == old(nodes) && loading == old(loading)
    {
      publicKey := "0x" + HexString(digits);
    }

    /**
     * `handleRegister`: on success the three form fields are cleared and
     * the list is replaced by the refreshed one when that fetch succeeds;
     * on failure the form is kept. Loading is down again either way.
     */
    method HandleRegister(outcome: RegisterOutcome, refreshed: Option<seq<NodeRow>>)
      modifies this
      ensures !loading
      ensures outcome.Registered? ==> nodeId == "" && hospitalName == "" && publicKey == ""
      ensures outcome.Registered? && refreshed.Some? ==> nodes == refreshed.value
      ensures !(outcome.Registered? && refreshed.Some?) ==> nodes == old(nodes)
      ensures !outcome.Registered? ==>
                nodeId == old(nodeId) && hospitalName == old(hospitalName) && publicKey == old(publicKey)
    {
      loading := true;
      if outcome.Registered? {
        nodeId, hospitalName, publicKey := "", "", "";
        if refreshed.Some? {
          nodes := refreshed.value;
        }
      }
      loading := false;
    }
  }
}

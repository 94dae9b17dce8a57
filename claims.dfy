/** Attribute extraction. The connector inherits these helpers from its base class, which
    is not part of this model; they are modelled here as lookups of a claim URI in the
    entity's attribute entries. */
module Claims {
  import opened Wrappers
  import opened ScimTypes

  /** The values of the first entry whose claim URI is `uri`, or no values. */
  function ClaimValues(attrs: seq<Attribute>, uri: string): (r: seq<string>)
    ensures r != [] ==>
      exists i :: 0 <= i < |attrs| && attrs[i].claimUri == uri && attrs[i].values == r
        && forall j :: 0 <= j < i ==> attrs[j].claimUri != uri
    ensures (forall i :: 0 <= i < |attrs| ==> attrs[i].claimUri != uri) ==> r == []
  {
    if attrs == [] then []
    else if attrs[0].claimUri == uri then attrs[0].values
    else ClaimValues(attrs[1..], uri)
  }

  /** The first element of a list, or null when the list is empty (never fabricated). */
  function FirstOf(xs: seq<string>): (r: Option<string>)
    ensures r.None? <==> xs == []
    ensures r.Some? ==> r.value == xs[0]
  {
    if |xs| > 0 then Some(xs[0]) else None
  }

  /** getUserNames */
  function UserNames(attrs: seq<Attribute>): seq<string> {
    ClaimValues(attrs, USERNAME_CLAIM_URI)
  }

  /** getGroupNames */
  function GroupNames(attrs: seq<Attribute>): seq<string> {
    ClaimValues(attrs, GROUP_CLAIM_URI)
  }

  /** ProvisioningUtil.getAttributeValue: the first value of the claim, or null. */
  function AttributeValue(attrs: seq<Attribute>, uri: string): Option<string> {
    FirstOf(ClaimValues(attrs, uri))
  }

  /** getPassword */
  function PasswordClaim(attrs: seq<Attribute>): Option<string> {
    AttributeValue(attrs, PASSWORD_CLAIM_URI)
  }

  /** getSingleValuedClaims: every claim carrying exactly one value, mapped to that value;
      an earlier entry for the same URI wins. */
  function SingleValuedClaims(attrs: seq<Attribute>): (r: map<string, string>)
    ensures forall k :: k in r ==>
      exists i :: 0 <= i < |attrs| && attrs[i].claimUri == k && attrs[i].values == [r[k]]
    ensures forall i :: 0 <= i < |attrs| && |attrs[i].values| == 1 ==> attrs[i].claimUri in r
  {
    if attrs == [] then map[]
    else
      var rest := SingleValuedClaims(attrs[1..]);
      assert forall i :: 1 <= i < |attrs| ==> attrs[i] == attrs[1..][i - 1];
      if |attrs[0].values| == 1 then rest[attrs[0].claimUri := attrs[0].values[0]] else rest
  }
}

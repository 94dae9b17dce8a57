/** Configuration ingestion: `init` turns the provisioning property list into the SCIM
    provider's property map, the user-store domain name and the JIT flag. */
module ProviderConfig {
  import opened Wrappers
  import opened ScimTypes

  /** The connector state that `init` writes and every later operation only reads. */
  datatype Settings = Settings(config: map<string, string>, userStoreDomain: Option<string>, jitEnabled: bool)

  /** SCIMProvider.getProperty: the stored value, or null. */
  function GetProperty(config: map<string, string>, key: string): Option<string> {
    if key in config then Some(config[key]) else None
  }

  /** The provider-map key that a property of the given name populates, if any. The user-store
      domain and the JIT property are handled apart and populate no key. */
  function ProviderKey(name: Option<string>): Option<string> {
    if name == Some(SCIM_USER_EP) then Some(ELEMENT_NAME_USER_ENDPOINT)
    else if name == Some(SCIM_GROUP_EP) then Some(ELEMENT_NAME_GROUP_ENDPOINT)
    else if name == Some(SCIM_USERNAME) then Some(ELEMENT_NAME_USERNAME)
    else if name == Some(SCIM_PASSWORD) then Some(ELEMENT_NAME_PASSWORD)
    else if name == Some(SCIM_ENABLE_PASSWORD_PROVISIONING) then Some(SCIM_ENABLE_PASSWORD_PROVISIONING)
    else if name == Some(SCIM_DEFAULT_PASSWORD) then Some(SCIM_DEFAULT_PASSWORD)
    else None
  }

  /** What populateSCIMProvider stores for a property: its value when that is non-null and
      non-empty, else its default when that is non-null, else nothing. */
  function Written(p: Property): Option<string> {
    if p.value.Some? && |p.value.value| > 0 then p.value else p.defaultValue
  }

  /** populateSCIMProvider */
  function Populate(config: map<string, string>, p: Property, key: string): map<string, string> {
    match Written(p)
    case Some(v) => config[key := v]
    case None => config
  }

  /** The user-store domain takes the value whenever it is non-null, even when empty. */
  function DomainChoice(p: Property): Option<string> {
    if p.value.Some? then p.value else p.defaultValue
  }

  /** Only the value "1" of the JIT property enables just-in-time provisioning. */
  predicate EnablesJit(p: Property) {
    p.name == Some(JIT_PROVISIONING_ENABLED) && p.value == Some("1")
  }

  /** One iteration of the loop in `init`. */
  function Absorb(s: Settings, p: Property): Settings {
    var s1 :=
      if p.name == Some(SCIM_USERSTORE_DOMAIN) then s.(userStoreDomain := DomainChoice(p))
      else match ProviderKey(p.name)
        case Some(k) => s.(config := Populate(s.config, p, k))
        case None => s;
    if EnablesJit(p) then s1.(jitEnabled := true) else s1
  }

  /** The loop of `init` over the whole property list, in order. */
  function Ingest(s: Settings, ps: seq<Property>): Settings
    decreases |ps|
  {
    if ps == [] then s else Absorb(Ingest(s, ps[..|ps| - 1]), ps[|ps| - 1])
  }

  /** `init`: a fresh provider map, then the property list when it is non-null and non-empty.
      The domain and JIT flag are fields of the connector and are not reset. */
  function InitSettings(s: Settings, props: Option<seq<Property>>): Settings {
    var s0 := s.(config := map[]);
    if props.Some? && |props.value| > 0 then Ingest(s0, props.value) else s0
  }

  // ---- Properties of ingestion.

  /** A property writes key k when it names k's property and carries something to store. */
  predicate Writes(p: Property, k: string) {
    ProviderKey(p.name) == Some(k) && Written(p).Some?
  }

  /** Position i holds the last property of `ps` that writes key k. */
  ghost predicate LastWriterAt(ps: seq<Property>, k: string, i: int) {
    0 <= i < |ps| && Writes(ps[i], k) && forall j :: i < j < |ps| ==> !Writes(ps[j], k)
  }

  predicate NamesDomain(p: Property) {
    p.name == Some(SCIM_USERSTORE_DOMAIN)
  }

  /** Position i holds the last user-store-domain property of `ps`. */
  ghost predicate LastDomainAt(ps: seq<Property>, i: int) {
    0 <= i < |ps| && NamesDomain(ps[i]) && forall j :: i < j < |ps| ==> !NamesDomain(ps[j])
  }

  /** The precedence of populateSCIMProvider: a non-empty value beats the default, a
      non-null default is the fall-back, and otherwise the map is unchanged. */
  lemma PopulatePrecedence(m: map<string, string>, p: Property, k: string)
    ensures p.value.Some? && p.value.value != "" ==> Populate(m, p, k) == m[k := p.value.value]
    ensures (p.value.None? || p.value == Some("")) && p.defaultValue.Some? ==>
      Populate(m, p, k) == m[k := p.defaultValue.value]
    ensures (p.value.None? || p.value == Some("")) && p.defaultValue.None? ==> Populate(m, p, k) == m
  {
  }

  /** One property either writes key k or leaves it as it was. */
  lemma AbsorbAtKey(s: Settings, p: Property, k: string)
    ensures Writes(p, k) ==> k in Absorb(s, p).config && Absorb(s, p).config[k] == Written(p).value
    ensures !Writes(p, k) ==> (k in Absorb(s, p).config <==> k in s.config)
    ensures !Writes(p, k) && k in s.config ==> Absorb(s, p).config[k] == s.config[k]
  {
    assert ProviderKey(Some(SCIM_USERSTORE_DOMAIN)) == None;
  }

  /** After ingesting `ps`, key k is present exactly when it was before or some property
      writes it. */
  lemma {:induction false} IngestKeyPresent(s: Settings, ps: seq<Property>, k: string)
    ensures k in Ingest(s, ps).config <==> k in s.config || exists i :: 0 <= i < |ps| && Writes(ps[i], k)
    decreases |ps|
  {
    if ps != [] {
      var n := |ps| - 1;
      IngestKeyPresent(s, ps[..n], k);
      AbsorbAtKey(Ingest(s, ps[..n]), ps[n], k);
      assert forall i :: 0 <= i < n ==> ps[..n][i] == ps[i];
    }
  }

  /** After ingesting `ps`, key k holds what the last property writing it wrote. */
  lemma {:induction false} IngestKeyLastWriter(s: Settings, ps: seq<Property>, k: string, i: int)
    requires LastWriterAt(ps, k, i)
    ensures k in Ingest(s, ps).config && Ingest(s, ps).config[k] == Written(ps[i]).value
    decreases |ps|
  {
    var n := |ps| - 1;
    var front := ps[..n];
    AbsorbAtKey(Ingest(s, front), ps[n], k);
    if i < n {
      assert front[i] == ps[i];
      assert forall j :: i < j < n ==> front[j] == ps[j];
      IngestKeyLastWriter(s, front, k, i);
    }
  }

  /** A key no property writes keeps its value. */
  lemma {:induction false} IngestKeyUnchanged(s: Settings, ps: seq<Property>, k: string)
    requires forall i :: 0 <= i < |ps| ==> !Writes(ps[i], k)
    requires k in s.config
    ensures k in Ingest(s, ps).config && Ingest(s, ps).config[k] == s.config[k]
    decreases |ps|
  {
    if ps != [] {
      var n := |ps| - 1;
      assert forall i :: 0 <= i < n ==> ps[..n][i] == ps[i];
      IngestKeyUnchanged(s, ps[..n], k);
      AbsorbAtKey(Ingest(s, ps[..n]), ps[n], k);
    }
  }

  /** After ingesting `ps`, key k is present exactly when it was before or some property
      writes it, and it then holds what the last such property wrote. */
  lemma IngestConfig(s: Settings, ps: seq<Property>, k: string)
    ensures k in Ingest(s, ps).config <==> k in s.config || exists i :: 0 <= i < |ps| && Writes(ps[i], k)
    ensures forall i :: LastWriterAt(ps, k, i) ==> Ingest(s, ps).config[k] == Written(ps[i]).value
    ensures (forall i :: 0 <= i < |ps| ==> !Writes(ps[i], k)) && k in s.config ==>
      Ingest(s, ps).config[k] == s.config[k]
  {
    IngestKeyPresent(s, ps, k);
    forall i | LastWriterAt(ps, k, i)
      ensures Ingest(s, ps).config[k] == Written(ps[i]).value
    {
      IngestKeyLastWriter(s, ps, k, i);
    }
    if (forall i :: 0 <= i < |ps| ==> !Writes(ps[i], k)) && k in s.config {
      IngestKeyUnchanged(s, ps, k);
    }
  }

  /** After ingesting `ps`, the domain is that of the last user-store-domain property: its
      value whenever non-null (even empty), else its default; unchanged without one. */
  lemma {:induction false} IngestDomain(s: Settings, ps: seq<Property>)
    ensures (forall i :: 0 <= i < |ps| ==> !NamesDomain(ps[i])) ==>
      Ingest(s, ps).userStoreDomain == s.userStoreDomain
    ensures forall i :: LastDomainAt(ps, i) && ps[i].value.Some? ==>
      Ingest(s, ps).userStoreDomain == ps[i].value
    ensures forall i :: LastDomainAt(ps, i) && ps[i].value.None? ==>
      Ingest(s, ps).userStoreDomain == ps[i].defaultValue
    decreases |ps|
  {
    if ps != [] {
      var n := |ps| - 1;
      var front := ps[..n];
      IngestDomain(s, front);
      assert forall i :: 0 <= i < n ==> front[i] == ps[i];
      forall i | LastDomainAt(ps, i)
        ensures Ingest(s, ps).userStoreDomain == DomainChoice(ps[i])
      {
        if i < n {
          assert LastDomainAt(front, i);
        }
      }
    }
  }

  /** The JIT flag ends up set exactly when it was set before or some property is the JIT
      property with value "1": ingestion never clears it. */
  lemma {:induction false} IngestJit(s: Settings, ps: seq<Property>)
    ensures Ingest(s, ps).jitEnabled <==> s.jitEnabled || exists i :: 0 <= i < |ps| && EnablesJit(ps[i])
    decreases |ps|
  {
    if ps != [] {
      var n := |ps| - 1;
      IngestJit(s, ps[..n]);
      assert forall i :: 0 <= i < n ==> ps[..n][i] == ps[i];
    }
  }

  /** `init` rebuilds the provider map from nothing, keeps a JIT flag that is already on
      and enables it only through a JIT property with value "1". */
  lemma InitProperties(s: Settings, props: Option<seq<Property>>)
    ensures var r := InitSettings(s, props);
      && (s.jitEnabled ==> r.jitEnabled)
      && (props.None? || props == Some([]) ==> r == s.(config := map[]))
      && (props.Some? ==>
            && (r.jitEnabled <==> s.jitEnabled || exists i :: 0 <= i < |props.value| && EnablesJit(props.value[i]))
            && forall k :: k in r.config <==> exists i :: 0 <= i < |props.value| && Writes(props.value[i], k))
  {
    if props.Some? && |props.value| > 0 {
      var s0 := s.(config := map[]);
      IngestJit(s0, props.value);
      forall k ensures k in InitSettings(s, props).config <==>
        exists i :: 0 <= i < |props.value| && Writes(props.value[i], k)
      {
        IngestConfig(s0, props.value, k);
      }
    }
  }
}

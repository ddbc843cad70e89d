/**
  Distinguished-name scope of a CA and the X.509 subject built from it.

  A CA's dn-scope holds seven optional attributes. A sub-CA inherits every
  attribute its parent sets, and a subject carries an attribute exactly when
  the scope sets it (an empty attribute is omitted, never emitted as "").
*/
module DistinguishedNames {

  /** The seven attributes of a dn-scope, in the order of the CA schema. */
  datatype Attribute =
    | Country
    | Organization
    | OrganizationalUnit
    | Locality
    | Province
    | StreetAddress
    | PostalCode

  /** The `dn-scope` object of a CA body; "" means the attribute is not set. */
  datatype DNScope = DNScope(
    country: string,
    organization: string,
    organizationalUnit: string,
    locality: string,
    province: string,
    streetAddress: string,
    postalCode: string)
  {
    /** The value of attribute `a`. */
    function Get(a: Attribute): string {
      match a
      case Country => country
      case Organization => organization
      case OrganizationalUnit => organizationalUnit
      case Locality => locality
      case Province => province
      case StreetAddress => streetAddress
      case PostalCode => postalCode
    }
  }

  /** The scope that sets no attribute (the default template's). */
  const EmptyScope := DNScope("", "", "", "", "", "", "")

  /** The value a child keeps for one attribute: the parent's when the parent sets it, its own otherwise. */
  function Override(own: string, parents: string): string {
    if parents != "" then parents else own
  }

  /**
    DN-scope inheritance from a parent CA: each attribute the parent sets
    overrides the child's, even a non-empty one; every other attribute keeps
    the child's value.
  */
  function Inherit(child: DNScope, parent: DNScope): (r: DNScope)
    ensures forall a: Attribute :: r.Get(a) == Override(child.Get(a), parent.Get(a))
  {
    DNScope(
      Override(child.country, parent.country),
      Override(child.organization, parent.organization),
      Override(child.organizationalUnit, parent.organizationalUnit),
      Override(child.locality, parent.locality),
      Override(child.province, parent.province),
      Override(child.streetAddress, parent.streetAddress),
      Override(child.postalCode, parent.postalCode))
  }

  /** Two scopes that agree on every attribute are equal. */
  lemma ScopeExtensionality(s: DNScope, t: DNScope)
    requires forall a: Attribute :: s.Get(a) == t.Get(a)
    ensures s == t
  {
    assert s.country == t.country by { assert s.Get(Country) == t.Get(Country); }
    assert s.organization == t.organization by { assert s.Get(Organization) == t.Get(Organization); }
    assert s.organizationalUnit == t.organizationalUnit by { assert s.Get(OrganizationalUnit) == t.Get(OrganizationalUnit); }
    assert s.locality == t.locality by { assert s.Get(Locality) == t.Get(Locality); }
    assert s.province == t.province by { assert s.Get(Province) == t.Get(Province); }
    assert s.streetAddress == t.streetAddress by { assert s.Get(StreetAddress) == t.Get(StreetAddress); }
    assert s.postalCode == t.postalCode by { assert s.Get(PostalCode) == t.Get(PostalCode); }
  }

  /**
    Inheritance is a merge: inheriting from an empty parent changes nothing,
    inheriting twice from the same parent is the same as once, and a parent
    that sets every attribute is copied whole.
  */
  lemma InheritLaws(child: DNScope, parent: DNScope)
    ensures Inherit(child, EmptyScope) == child
    ensures Inherit(Inherit(child, parent), parent) == Inherit(child, parent)
    ensures (forall a: Attribute :: parent.Get(a) != "") ==> Inherit(child, parent) == parent
    ensures Inherit(parent, parent) == parent
  {
    var once := Inherit(child, parent);
    ScopeExtensionality(Inherit(child, EmptyScope), child);
    ScopeExtensionality(Inherit(once, parent), once);
    ScopeExtensionality(Inherit(parent, parent), parent);
    if forall a: Attribute :: parent.Get(a) != "" {
      ScopeExtensionality(once, parent);
    }
  }

  /** The subset of an X.509 `pkix.Name` this package sets: a common name and one list per attribute. */
  datatype Name = Name(
    commonName: string,
    country: seq<string>,
    organization: seq<string>,
    organizationalUnit: seq<string>,
    locality: seq<string>,
    province: seq<string>,
    streetAddress: seq<string>,
    postalCode: seq<string>)
  {
    /** The values the name carries for attribute `a`. */
    function Values(a: Attribute): seq<string> {
      match a
      case Country => country
      case Organization => organization
      case OrganizationalUnit => organizationalUnit
      case Locality => locality
      case Province => province
      case StreetAddress => streetAddress
      case PostalCode => postalCode
    }
  }

  /** A one-element list holding `v`, or no list at all when `v` is empty. */
  function Optional(v: string): seq<string> {
    if v != "" then [v] else []
  }

  /**
    The subject of a certificate issued under `scope`: the common name is
    `commonName`, and attribute `a` is present, as the one-element list of the
    scope's value, exactly when the scope sets it.
  */
  function Subject(commonName: string, scope: DNScope): (n: Name)
    ensures n.commonName == commonName
    ensures forall a: Attribute :: scope.Get(a) != "" <==> n.Values(a) == [scope.Get(a)]
    ensures forall a: Attribute :: scope.Get(a) == "" <==> n.Values(a) == []
  {
    Name(commonName,
      Optional(scope.country),
      Optional(scope.organization),
      Optional(scope.organizationalUnit),
      Optional(scope.locality),
      Optional(scope.province),
      Optional(scope.streetAddress),
      Optional(scope.postalCode))
  }

  /** The first value of a name's attribute list, or "" when the list is empty. */
  function First(vs: seq<string>): string {
    if vs == [] then "" else vs[0]
  }

  /** The dn-scope a name was built from: each attribute's single value, or "" when absent. */
  function ScopeOf(n: Name): DNScope {
    DNScope(First(n.country), First(n.organization), First(n.organizationalUnit),
      First(n.locality), First(n.province), First(n.streetAddress), First(n.postalCode))
  }

  /**
    Building a subject loses nothing: the scope is recovered from the subject,
    so two subjects are equal only when built from the same common name and
    the same scope; and no attribute of a subject holds an empty string.
  */
  lemma SubjectRoundTrip(commonName: string, scope: DNScope)
    ensures ScopeOf(Subject(commonName, scope)) == scope
    ensures forall a: Attribute, v :: v in Subject(commonName, scope).Values(a) ==> v != ""
  {
  }

  /** Distinct (common name, scope) pairs give distinct subjects. */
  lemma SubjectInjective(cn1: string, s1: DNScope, cn2: string, s2: DNScope)
    requires Subject(cn1, s1) == Subject(cn2, s2)
    ensures cn1 == cn2 && s1 == s2
  {
    SubjectRoundTrip(cn1, s1);
    SubjectRoundTrip(cn2, s2);
  }
}

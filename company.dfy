/**
 * The company block of the messenger handshake: find a company by name or
 * alias, or create one seeded with that name, and link it to the customer.
 */
module CompanyLinking {
  import opened Wrappers
  import opened WidgetTypes

  /** The part of the visitor's company data the link is driven by. */
  datatype CompanyData = CompanyData(name: Option<string>)

  /** The result of find-or-create: the company collection afterwards and the linked company. */
  datatype Link = Link(companies: seq<Company>, companyId: Id)

  /** The name to link by, present only when company data with a truthy name was sent. */
  function LinkName(data: Option<CompanyData>): (r: Option<string>)
    ensures r.Some? <==> data.Some? && Truthy(data.value.name)
    ensures r.Some? ==> r.value != "" && data.value.name == Some(r.value)
  {
    if data.Some? && data.value.name.Some? && data.value.name.value != "" then data.value.name else None
  }

  /** The company query: `name` is one of its names or is its primary name. */
  predicate NameMatches(c: Company, name: string)
  {
    name in c.names || c.primaryName == Some(name)
  }

  /** The first company, in stored order, that matches `name`. */
  function FindCompany(cs: seq<Company>, name: string): (r: Option<nat>)
    ensures r.Some? ==> r.value < |cs| && NameMatches(cs[r.value], name)
    ensures r.Some? ==> forall j :: 0 <= j < r.value ==> !NameMatches(cs[j], name)
    ensures r.None? <==> forall j :: 0 <= j < |cs| ==> !NameMatches(cs[j], name)
  {
    if |cs| == 0 then None
    else if NameMatches(cs[0], name) then Some(0)
    else match FindCompany(cs[1..], name)
      case None => None
      case Some(k) => Some(k + 1)
  }

  /** The company created for an unknown name, scoped to the messenger's brand. */
  function NewCompany(id: Id, name: string, brandId: Id): Company
  {
    Company(id, Some(name), [name], [brandId])
  }

  /** Reuse the first matching company, or append a new one with id `freshId`. */
  function FindOrCreateCompany(cs: seq<Company>, name: string, brandId: Id, freshId: Id): (r: Link)
    ensures (exists j :: 0 <= j < |cs| && NameMatches(cs[j], name)) <==> r.companies == cs
    ensures r.companies == cs || r.companies == cs + [NewCompany(freshId, name, brandId)]
    ensures r.companies != cs ==> r.companyId == freshId
    ensures exists k :: 0 <= k < |r.companies| && r.companies[k].id == r.companyId && NameMatches(r.companies[k], name)
  {
    match FindCompany(cs, name)
    case Some(k) => Link(cs, cs[k].id)
    case None =>
      var created := NewCompany(freshId, name, brandId);
      assert (cs + [created])[|cs|] == created;
      Link(cs + [created], freshId)
  }

  /** A second connect with the same name reuses the company the first one linked. */
  lemma ConnectTwiceReusesCompany(cs: seq<Company>, name: string, brandId: Id, id1: Id, id2: Id)
    ensures var first := FindOrCreateCompany(cs, name, brandId, id1);
      FindOrCreateCompany(first.companies, name, brandId, id2) == first
  {
  }

  /** The link recorded between a customer and its company. */
  function CustomerCompany(customerId: Id, companyId: Id): Conformity
  {
    Conformity("customer", customerId, "company", companyId)
  }
}

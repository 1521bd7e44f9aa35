/**
 * The employer tools' decision logic over an abstract store of employer
 * profiles and internship listings: payloads validated into the fields they
 * give, a listing updated (when an owned id is given) or created (when
 * title and description are given), and the result strings the agent sees.
 */
module EmployerTools {
  import opened Wrappers
  import opened Json
  import opened ToolResult

  /** `CompanyProfilePayload` after validation; every field is optional. */
  datatype CompanyPayload = CompanyPayload(companyName: Option<string>, mission: Option<string>, location: Option<string>, website: Option<string>)

  /** `InternshipPayload` after validation; every field is optional. */
  datatype InternshipPayload = InternshipPayload(
    id: Option<int>, title: Option<string>, description: Option<string>,
    location: Option<string>, isRemote: Option<bool>, requirements: Option<string>)

  function StrField(v: Option<string>): Option<Json> {
    if v.Some? then Some(JStr(v.value)) else None
  }

  const CompanyKeys: set<string> := {"company_name", "mission", "location", "website"}
  const InternshipKeys: set<string> := {"id", "title", "description", "location", "is_remote", "requirements"}

  /** A company payload's value for one field name, if set. */
  function CompanyValue(p: CompanyPayload, key: string): Option<Json> {
    match key
    case "company_name" => StrField(p.companyName)
    case "mission" => StrField(p.mission)
    case "location" => StrField(p.location)
    case "website" => StrField(p.website)
    case _ => None
  }

  /** A listing payload's value for one field name, if set. */
  function InternshipValue(p: InternshipPayload, key: string): Option<Json> {
    match key
    case "id" => if p.id.Some? then Some(JNum(p.id.value as real)) else None
    case "title" => StrField(p.title)
    case "description" => StrField(p.description)
    case "location" => StrField(p.location)
    case "is_remote" => if p.isRemote.Some? then Some(JBool(p.isRemote.value)) else None
    case "requirements" => StrField(p.requirements)
    case _ => None
  }

  /** `model_dump(exclude_none=True)` of a company payload: exactly the fields that are set. */
  function DumpCompany(p: CompanyPayload): (r: Fields)
    ensures r.Keys <= CompanyKeys
    ensures "company_name" in r <==> p.companyName.Some?
    ensures "mission" in r <==> p.mission.Some?
    ensures "location" in r <==> p.location.Some?
    ensures "website" in r <==> p.website.Some?
  {
    map k | k in CompanyKeys && CompanyValue(p, k).Some? :: CompanyValue(p, k).value
  }

  /** `model_dump(exclude_none=True)` of a listing payload: exactly the fields that are set. */
  function DumpInternship(p: InternshipPayload): (r: Fields)
    ensures r.Keys <= InternshipKeys
    ensures "id" in r <==> p.id.Some?
    ensures p.id.Some? ==> r["id"] == JNum(p.id.value as real)
    ensures "title" in r <==> p.title.Some?
    ensures "description" in r <==> p.description.Some?
    ensures "location" in r <==> p.location.Some?
    ensures "is_remote" in r <==> p.isRemote.Some?
    ensures "requirements" in r <==> p.requirements.Some?
  {
    map k | k in InternshipKeys && InternshipValue(p, k).Some? :: InternshipValue(p, k).value
  }

  /** Python truthiness of an optional listing id: `0` counts as no id. */
  predicate GivenId(id: Option<int>) {
    id.Some? && id.value != 0
  }

  /**
   * The employer profiles after `Employer.objects.get_or_create(user=…)`:
   * an existing record is kept as it is, a missing one is added empty.
   */
  function WithEmployer(companies: map<nat, Fields>, owner: nat): (r: map<nat, Fields>)
    ensures r.Keys == companies.Keys + {owner}
    ensures owner in companies ==> r == companies
    ensures owner !in companies ==> r[owner] == map[] && forall u :: u in companies ==> r[u] == companies[u]
  {
    if owner in companies then companies else companies[owner := map[]]
  }

  /** A stored listing: its employer and its fields. */
  datatype Listing = Listing(owner: nat, fields: Fields)

  /**
   * The stored employer profiles (by user) and listings (by id); new
   * listings get the next id, which no stored listing has yet.
   */
  class EmployerStore {
    var companies: map<nat, Fields>
    var listings: map<nat, Listing>
    var nextId: nat

    ghost predicate Valid()
      reads this
    {
      nextId >= 1 && forall id :: id in listings ==> 1 <= id < nextId
    }

    constructor ()
      ensures Valid() && companies == map[] && listings == map[] && nextId == 1
    {
      companies := map[];
      listings := map[];
      nextId := 1;
    }

    /** `Employer.objects.get_or_create(user=…)`: the employer record exists afterwards, unchanged if it did. */
    method EnsureEmployer(owner: nat)
      modifies this`companies
      ensures companies == WithEmployer(old(companies), owner)
    {
      if owner !in companies {
        companies := companies[owner := map[]];
      }
    }

    /** Whether `id` names a listing of this employer (`Internship.objects.get(id=…, employer=…)`). */
    predicate Owns(owner: nat, id: int)
      reads this
    {
      id >= 0 && id as nat in listings && listings[id as nat].owner == owner
    }

    /**
     * Applies fields to an owned listing (`setattr` for each, then model
     * validation and save); a listing that fails validation is not saved.
     */
    method UpdateListing(id: nat, data: Fields, clean: Fields -> bool) returns (ok: bool)
      requires Valid() && id in listings
      modifies this`listings
      ensures Valid()
      ensures ok == clean(old(listings)[id].fields + data)
      ensures listings == if ok then old(listings)[id := Listing(old(listings)[id].owner, old(listings)[id].fields + data)] else old(listings)
    {
      var l := listings[id];
      var merged := l.fields + data;
      ok := clean(merged);
      if ok {
        listings := listings[id := Listing(l.owner, merged)];
      }
    }

    /** Creates a listing under the next id when it passes model validation. */
    method CreateListing(owner: nat, data: Fields, clean: Fields -> bool) returns (id: Option<nat>)
      requires Valid()
      modifies this`listings, this`nextId
      ensures Valid()
      ensures id.Some? <==> clean(data)
      ensures id.None? ==> listings == old(listings) && nextId == old(nextId)
      ensures id.Some? ==>
        && id.value == old(nextId) && id.value !in old(listings)
        && listings == old(listings)[id.value := Listing(owner, data)] && nextId == old(nextId) + 1
    {
      if !clean(data) {
        return None;
      }
      id := Some(nextId);
      listings := listings[nextId := Listing(owner, data)];
      nextId := nextId + 1;
    }
  }

  /**
   * `set_company_fields_v1`: a payload that fails validation raises; the
   * employer record is created if missing; the given fields are written only
   * when there are any and the serializer accepts them.
   */
  method SetCompanyFields(store: EmployerStore, owner: nat, payload: string,
                          validate: string -> Option<CompanyPayload>, accept: Fields -> bool,
                          debug: bool, dumps: Fields -> string)
    returns (r: Result<string, ToolError>)
    modifies store`companies
    ensures validate(payload).None? ==> r == Err(InvalidPayload) && store.companies == old(store.companies)
    ensures validate(payload).Some? ==>
      var data := DumpCompany(validate(payload).value);
      var before := if owner in old(store.companies) then old(store.companies)[owner] else map[];
      if data != map[] && !accept(before + data) then
        r == Err(RejectedProfile) && store.companies == old(store.companies)[owner := before]
      else
        && r == Ok(Report("company_profile_updated", debug, dumps(data)))
        && store.companies == old(store.companies)[owner := before + data]
  {
    var p := validate(payload);
    if p.None? {
      return Err(InvalidPayload);
    }
    var data := DumpCompany(p.value);
    store.EnsureEmployer(owner);
    if data != map[] {
      var merged := store.companies[owner] + data;
      if !accept(merged) {
        return Err(RejectedProfile);
      }
      store.companies := store.companies[owner := merged];
    } else {
      assert store.companies[owner] + data == store.companies[owner];
    }
    r := Ok(Report("company_profile_updated", debug, dumps(data)));
  }

  /**
   * `set_internship_fields_v1`: `id` is taken out of the data first. With a
   * non-zero id the listing must belong to the employer, and the remaining
   * fields (if any) are applied; an id alone changes nothing but still
   * reports an update. Without one, title and description are required and a
   * new listing is created. The saved snapshot is the applied fields plus
   * the listing's id, and only creation reports `listing_created`.
   */
  method SetInternshipFields(store: EmployerStore, owner: nat, payload: string,
                             validate: string -> Option<InternshipPayload>, clean: Fields -> bool,
                             debug: bool, dumps: Fields -> string)
    returns (r: Result<string, ToolError>)
    requires store.Valid()
    modifies store
    ensures store.Valid()
    ensures validate(payload).None? ==> r == Err(InvalidPayload) && store.listings == old(store.listings)
    ensures validate(payload).None? ==> store.companies == old(store.companies) && store.nextId == old(store.nextId)
    ensures validate(payload).Some? ==> store.companies == WithEmployer(old(store.companies), owner)
    ensures validate(payload).Some? ==>
      var p := validate(payload).value;
      var data := DumpInternship(p) - {"id"};
      store.nextId == if !GivenId(p.id) && "title" in data && "description" in data && clean(data)
        then old(store.nextId) + 1 else old(store.nextId)
    ensures validate(payload).Some? ==>
      var p := validate(payload).value;
      var data := DumpInternship(p) - {"id"};
      if GivenId(p.id) then
        if !old(store.Owns(owner, p.id.value)) then r == Err(NotFound(p.id.value)) && store.listings == old(store.listings)
        else if data == map[] then
          r == Ok(Report("listing_updated", debug, dumps(map["id" := JNum(p.id.value as real)]))) && store.listings == old(store.listings)
        else if !clean(old(store.listings)[p.id.value as nat].fields + data) then
          r == Err(InvalidListing) && store.listings == old(store.listings)
        else
          && r == Ok(Report("listing_updated", debug, dumps(data["id" := JNum(p.id.value as real)])))
          && store.listings == old(store.listings)[p.id.value as nat := Listing(owner, old(store.listings)[p.id.value as nat].fields + data)]
      else if "title" !in data || "description" !in data then
        r == Err(TitleAndDescriptionRequired) && store.listings == old(store.listings)
      else if !clean(data) then
        r == Err(InvalidListing) && store.listings == old(store.listings)
      else
        && old(store.nextId) !in old(store.listings)
        && r == Ok(Report("listing_created", debug, dumps(data["id" := JNum(old(store.nextId) as real)])))
        && store.listings == old(store.listings)[old(store.nextId) := Listing(owner, data)]
  {
    var p := validate(payload);
    if p.None? {
      return Err(InvalidPayload);
    }
    var data := DumpInternship(p.value) - {"id"};
    var listingId := p.value.id;
    store.EnsureEmployer(owner);
    var id: int;
    var created := false;
    if GivenId(listingId) {
      if !store.Owns(owner, listingId.value) {
        return Err(NotFound(listingId.value));
      }
      id := listingId.value;
      if data != map[] {
        var ok := store.UpdateListing(id as nat, data, clean);
        if !ok {
          return Err(InvalidListing);
        }
      }
    } else {
      if "title" !in data || "description" !in data {
        return Err(TitleAndDescriptionRequired);
      }
      var newId := store.CreateListing(owner, data, clean);
      if newId.None? {
        return Err(InvalidListing);
      }
      id := newId.value;
      created := true;
    }
    var saved := data["id" := JNum(id as real)];
    r := Ok(Report(if created then "listing_created" else "listing_updated", debug, dumps(saved)));
  }
}

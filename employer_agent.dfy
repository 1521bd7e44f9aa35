/**
 * The employer agent's own tool wrappers: empty payloads are "no_changes",
 * company keys are renamed through a fixed alias table, listings are saved
 * by id or created from title and description, and every tool's schema is
 * stripped of its "required" list so the model may send partial payloads.
 */
module EmployerAgent {
  import opened Wrappers
  import opened Text
  import opened Json
  import opened ToolResult
  import opened EmployerTools

  /** `_KEY_MAP`: the accepted spellings of each company field. */
  const KeyMap: map<string, string> := map[
    "name" := "company_name", "companyName" := "company_name", "company_name" := "company_name",
    "mission" := "mission", "missionStatement" := "mission", "mission_statement" := "mission",
    "location" := "location", "website" := "website"]

  /** A missing or empty payload, or one that is `{}`, `null` or blank once stripped. */
  predicate NoPayload(payload: Option<string>) {
    payload.None? || payload.value == "" || Trim(Py, payload.value) in {"{}", "null", ""}
  }

  /** A payload that is only white space counts as none. */
  lemma BlankIsNoPayload(s: string)
    requires AllSpace(Py, s)
    ensures NoPayload(Some(s))
  {
    TrimEmpty(Py, s);
  }

  /**
   * `{_KEY_MAP[k]: v for k, v in raw.items() if k in _KEY_MAP}` over the
   * items of the decoded object in order (`json.loads` gives each key once).
   */
  function Renamed(items: seq<(string, Json)>): (r: Fields)
    ensures r.Keys <= CompanyKeys
  {
    if items == [] then map[]
    else
      var (k, v) := items[|items| - 1];
      var rest := Renamed(items[..|items| - 1]);
      if k in KeyMap then rest[KeyMap[k] := v] else rest
  }

  /** The position of the last item whose key is a spelling of `field`, or -1. */
  function LastSpelling(items: seq<(string, Json)>, field: string): (j: int)
    ensures -1 <= j < |items|
    ensures j >= 0 ==> items[j].0 in KeyMap && KeyMap[items[j].0] == field
    ensures forall k :: j < k < |items| ==> items[k].0 !in KeyMap || KeyMap[items[k].0] != field
  {
    if items == [] then -1
    else if items[|items| - 1].0 in KeyMap && KeyMap[items[|items| - 1].0] == field then |items| - 1
    else LastSpelling(items[..|items| - 1], field)
  }

  /**
   * A field is set exactly when some spelling of it was given, and it takes
   * the value of the last such spelling; unknown keys contribute nothing.
   */
  lemma {:induction false} RenamedSpec(items: seq<(string, Json)>, field: string)
    ensures var j := LastSpelling(items, field);
      && (field in Renamed(items) <==> j >= 0)
      && (j >= 0 ==> Renamed(items)[field] == items[j].1)
  {
    if items != [] {
      RenamedSpec(items[..|items| - 1], field);
    }
  }

  /** What the agent's tools raise. */
  datatype Raised =
    | UndecodableJson        // `json.loads` failed
    | NotAnObject            // the decoded value has no `.items()`
    | ToolFailed(e: ToolError)

  /**
   * The agent's `set_company_fields_v1`: no payload or no known key means
   * "no_changes" and no write; otherwise the employer record is created if
   * missing and the renamed fields are written when the serializer accepts
   * them.
   */
  method SetCompanyFields(store: EmployerStore, owner: nat, payload: Option<string>,
                          parse: string -> Option<Json>, accept: Fields -> bool,
                          debug: bool, dumps: Fields -> string)
    returns (r: Result<string, Raised>)
    modifies store`companies
    ensures NoPayload(payload) ==> r == Ok("no_changes") && store.companies == old(store.companies)
    ensures !NoPayload(payload) && parse(payload.value).None? ==> r == Err(UndecodableJson) && store.companies == old(store.companies)
    ensures !NoPayload(payload) && parse(payload.value).Some? && !parse(payload.value).value.JObj? ==>
      r == Err(NotAnObject) && store.companies == old(store.companies)
    ensures !NoPayload(payload) && parse(payload.value).Some? && parse(payload.value).value.JObj? ==>
      var data := Renamed(parse(payload.value).value.fields);
      var before := if owner in old(store.companies) then old(store.companies)[owner] else map[];
      if data == map[] then r == Ok("no_changes") && store.companies == old(store.companies)
      else if !accept(before + data) then
        r == Err(ToolFailed(RejectedProfile)) && store.companies == old(store.companies)[owner := before]
      else
        r == Ok(Report("company_profile_updated", debug, dumps(data))) && store.companies == old(store.companies)[owner := before + data]
  {
    if NoPayload(payload) {
      return Ok("no_changes");
    }
    var raw := parse(payload.value);
    if raw.None? {
      return Err(UndecodableJson);
    }
    if !raw.value.JObj? {
      return Err(NotAnObject);
    }
    var data := Renamed(raw.value.fields);
    if data == map[] {
      return Ok("no_changes");
    }
    store.EnsureEmployer(owner);
    var merged := store.companies[owner] + data;
    if !accept(merged) {
      return Err(ToolFailed(RejectedProfile));
    }
    store.companies := store.companies[owner := merged];
    r := Ok(Report("company_profile_updated", debug, dumps(data)));
  }

  /** A payload naming a listing and nothing else. */
  predicate IdOnly(p: InternshipPayload) {
    GivenId(p.id) && DumpInternship(p).Keys == {"id"}
  }

  /** A payload is "id only" exactly when it gives a non-zero id and leaves every other field unset. */
  lemma IdOnlySpec(p: InternshipPayload)
    ensures IdOnly(p) <==>
      GivenId(p.id) && p.title.None? && p.description.None? && p.location.None? && p.isRemote.None? && p.requirements.None?
  {
    var d := DumpInternship(p);
    if GivenId(p.id) && p.title.None? && p.description.None? && p.location.None? && p.isRemote.None? && p.requirements.None? {
      assert d.Keys == {"id"} by {
        forall k | k in d.Keys ensures k == "id" {
          assert k in InternshipKeys;
        }
      }
    }
  }

  /**
   * `_save_listing_sync` behind the agent's `set_internship_fields_v1`: with
   * a non-zero id the listing must belong to the employer and the fields are
   * applied; without one, title and description are required and a listing
   * is created. The snapshot is the data with the listing's id, and only
   * creation reports `listing_created`. A payload that only names a listing
   * is "no_changes".
   */
  method SetInternshipFields(store: EmployerStore, owner: nat, payload: Option<string>,
                             validate: string -> Option<InternshipPayload>, clean: Fields -> bool,
                             debug: bool, dumps: Fields -> string)
    returns (r: Result<string, Raised>)
    requires store.Valid()
    modifies store
    ensures store.Valid()
    ensures NoPayload(payload) ==> r == Ok("no_changes") && store.listings == old(store.listings)
    ensures !NoPayload(payload) && validate(payload.value).None? ==>
      r == Err(ToolFailed(InvalidPayload)) && store.listings == old(store.listings)
    ensures NoPayload(payload) || validate(payload.value).None? || IdOnly(validate(payload.value).value) ==>
      store.companies == old(store.companies) && store.nextId == old(store.nextId)
    ensures !NoPayload(payload) && validate(payload.value).Some? && !IdOnly(validate(payload.value).value) ==>
      var data := DumpInternship(validate(payload.value).value);
      && store.companies == WithEmployer(old(store.companies), owner)
      && store.nextId == if !GivenId(validate(payload.value).value.id) && "title" in data && "description" in data && clean(data - {"id"})
        then old(store.nextId) + 1 else old(store.nextId)
    ensures !NoPayload(payload) && validate(payload.value).Some? ==>
      var p := validate(payload.value).value;
      var data := DumpInternship(p);
      var fields := data - {"id"};
      if IdOnly(p) then r == Ok("no_changes") && store.listings == old(store.listings)
      else if GivenId(p.id) then
        if !old(store.Owns(owner, p.id.value)) then
          r == Err(ToolFailed(NotFound(p.id.value))) && store.listings == old(store.listings)
        else if !clean(old(store.listings)[p.id.value as nat].fields + fields) then
          r == Err(ToolFailed(InvalidListing)) && store.listings == old(store.listings)
        else
          && r == Ok(Report("listing_updated", debug, dumps(data)))
          && store.listings == old(store.listings)[p.id.value as nat := Listing(owner, old(store.listings)[p.id.value as nat].fields + fields)]
      else if "title" !in data || "description" !in data then
        r == Err(ToolFailed(TitleAndDescriptionRequired)) && store.listings == old(store.listings)
      else if !clean(fields) then
        r == Err(ToolFailed(InvalidListing)) && store.listings == old(store.listings)
      else
        && old(store.nextId) !in old(store.listings)
        && r == Ok(Report("listing_created", debug, dumps(data["id" := JNum(old(store.nextId) as real)])))
        && store.listings == old(store.listings)[old(store.nextId) := Listing(owner, fields)]
  {
    if NoPayload(payload) {
      return Ok("no_changes");
    }
    var p := validate(payload.value);
    if p.None? {
      return Err(ToolFailed(InvalidPayload));
    }
    var data := DumpInternship(p.value);
    var listingId := p.value.id;
    if GivenId(listingId) && data.Keys == {"id"} {
      return Ok("no_changes");
    }
    store.EnsureEmployer(owner);
    var fields := data - {"id"};
    var id: int;
    var created := false;
    if GivenId(listingId) {
      if !store.Owns(owner, listingId.value) {
        return Err(ToolFailed(NotFound(listingId.value)));
      }
      id := listingId.value;
      var ok := store.UpdateListing(id as nat, fields, clean);
      if !ok {
        return Err(ToolFailed(InvalidListing));
      }
    } else {
      if "title" !in data || "description" !in data {
        return Err(ToolFailed(TitleAndDescriptionRequired));
      }
      var newId := store.CreateListing(owner, fields, clean);
      if newId.None? {
        return Err(ToolFailed(InvalidListing));
      }
      id := newId.value;
      created := true;
    }
    var snapshot := data["id" := JNum(id as real)];
    if !created {
      assert snapshot == data;
    }
    r := Ok(Report(if created then "listing_created" else "listing_updated", debug, dumps(snapshot)));
  }

  /** Every item of `fields` under `key` given the value `v`. */
  function Replace(fields: seq<(string, Json)>, key: string, v: Json): (r: seq<(string, Json)>)
    ensures |r| == |fields|
    ensures forall k :: 0 <= k < |r| ==> r[k].0 == fields[k].0
  {
    if fields == [] then []
    else
      var (k, w) := fields[|fields| - 1];
      Replace(fields[..|fields| - 1], key, v) + [if k == key then (key, v) else (k, w)]
  }

  /** `d.pop(key, None)`: the items of `fields` without `key`. */
  function Without(fields: seq<(string, Json)>, key: string): (r: seq<(string, Json)>)
    ensures !HasKey(r, key)
    ensures forall other :: other != key ==> Lookup(r, other) == Lookup(fields, other)
  {
    if fields == [] then []
    else
      var rest := Without(fields[..|fields| - 1], key);
      if fields[|fields| - 1].0 == key then rest else rest + [fields[|fields| - 1]]
  }

  /** A key that is present reads back the new value. */
  lemma {:induction false} ReplaceLookup(fields: seq<(string, Json)>, key: string, v: Json)
    requires Lookup(fields, key).Some?
    ensures Lookup(Replace(fields, key, v), key) == Some(v)
  {
    if fields[|fields| - 1].0 != key {
      ReplaceLookup(fields[..|fields| - 1], key, v);
    }
  }

  /** Replacing with the value already there changes nothing. */
  lemma {:induction false} ReplaceSame(fields: seq<(string, Json)>, key: string, v: Json)
    ensures Replace(Replace(fields, key, v), key, v) == Replace(fields, key, v)
  {
    if fields != [] {
      var r := Replace(fields, key, v);
      ReplaceSame(fields[..|fields| - 1], key, v);
      assert r[..|r| - 1] == Replace(fields[..|fields| - 1], key, v);
    }
  }

  lemma {:induction false} WithoutTwice(fields: seq<(string, Json)>, key: string)
    ensures Without(Without(fields, key), key) == Without(fields, key)
  {
    if fields != [] {
      WithoutTwice(fields[..|fields| - 1], key);
      var rest := Without(fields[..|fields| - 1], key);
      if fields[|fields| - 1].0 != key {
        assert (rest + [fields[|fields| - 1]])[..|rest|] == rest;
      }
    }
  }

  /**
   * `schema["function"]["parameters"].pop("required", None)`, where any
   * missing key or non-object value makes it do nothing.
   */
  function StripRequired(schema: Json): Json {
    if !schema.JObj? then schema
    else
      match Lookup(schema.fields, "function")
      case Some(JObj(fn)) =>
        (match Lookup(fn, "parameters")
         case Some(JObj(params)) =>
           JObj(Replace(schema.fields, "function", JObj(Replace(fn, "parameters", JObj(Without(params, "required"))))))
         case _ => schema)
      case _ => schema
  }

  /** The parameters object of a schema, when it has one. */
  function Parameters(schema: Json): Option<seq<(string, Json)>> {
    if !schema.JObj? then None
    else
      match Lookup(schema.fields, "function")
      case Some(JObj(fn)) =>
        (match Lookup(fn, "parameters")
         case Some(JObj(params)) => Some(params)
         case _ => None)
      case _ => None
  }

  /**
   * After stripping, a schema with a parameters object has no "required"
   * entry there and keeps every other entry; a schema without one is unchanged.
   */
  lemma StripRequiredSpec(schema: Json)
    ensures Parameters(schema).None? ==> StripRequired(schema) == schema
    ensures Parameters(schema).Some? ==>
      && Parameters(StripRequired(schema)) == Some(Without(Parameters(schema).value, "required"))
      && !HasKey(Parameters(StripRequired(schema)).value, "required")
  {
    if Parameters(schema).Some? {
      var fn := Lookup(schema.fields, "function").value.fields;
      var params := Parameters(schema).value;
      var fn' := Replace(fn, "parameters", JObj(Without(params, "required")));
      ReplaceLookup(schema.fields, "function", JObj(fn'));
      ReplaceLookup(fn, "parameters", JObj(Without(params, "required")));
    }
  }

  /** Stripping twice is stripping once. */
  lemma StripRequiredIdempotent(schema: Json)
    ensures StripRequired(StripRequired(schema)) == StripRequired(schema)
  {
    if Parameters(schema).Some? {
      var fn := Lookup(schema.fields, "function").value.fields;
      var params := Parameters(schema).value;
      var w := Without(params, "required");
      var fn' := Replace(fn, "parameters", JObj(w));
      var once := StripRequired(schema);
      StripRequiredSpec(schema);
      ReplaceLookup(schema.fields, "function", JObj(fn'));
      ReplaceLookup(fn, "parameters", JObj(w));
      WithoutTwice(params, "required");
      ReplaceSame(fn, "parameters", JObj(w));
      ReplaceSame(schema.fields, "function", JObj(fn'));
    }
  }

  /** A function tool's schema attributes; `None` is an attribute the object does not have. */
  class FunctionTool {
    var openaiSchema: Option<Json>
    var schema: Option<Json>

    constructor (openaiSchema: Option<Json>, schema: Option<Json>)
      ensures this.openaiSchema == openaiSchema && this.schema == schema
    {
      this.openaiSchema := openaiSchema;
      this.schema := schema;
    }

    /**
     * `_equip_openai_schema`: a tool without `openai_schema` gets its `schema`
     * under that name (the same object, so both show the change), and the
     * "required" list is removed from its parameters.
     */
    method Equip()
      modifies this
      ensures var aliased := old(openaiSchema).None? && old(schema).Some?;
        var s := if aliased then old(schema) else old(openaiSchema);
        && openaiSchema == (if s.Some? then Some(StripRequired(s.value)) else None)
        && schema == (if aliased then openaiSchema else old(schema))
    {
      var aliased := openaiSchema.None? && schema.Some?;
      if aliased {
        openaiSchema := schema;
      }
      if openaiSchema.Some? {
        openaiSchema := Some(StripRequired(openaiSchema.value));
        if aliased {
          schema := openaiSchema;
        }
      }
    }
  }
}

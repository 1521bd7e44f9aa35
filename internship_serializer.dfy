/**
 * The listing serializer's own rules: an on-site listing needs a location,
 * and the employer's logo is shown as an absolute URL when a request is at
 * hand. Field-level validation and the ORM are not modelled.
 */
module InternshipSerializer {
  import opened Wrappers
  import opened Json

  const LocationRequired := "Location is required for non-remote internships."

  /** `attrs.get(key)`: a missing field reads as `None`. */
  function Get(attrs: Fields, key: string): Json {
    if key in attrs then attrs[key] else JNull
  }

  /** A listing is placed when it is remote or has a location. */
  predicate Placed(listing: Fields) {
    PyTruthy(Get(listing, "is_remote")) || PyTruthy(Get(listing, "location"))
  }

  /** The validation error, keyed by the field it is about. */
  const LocationError: Fields := map["location" := JStr(LocationRequired)]

  /**
   * `validate` as written: it looks only at the fields of this request and
   * returns them unchanged when the listing they describe is placed.
   */
  function Validate(attrs: Fields): (r: Result<Fields, Fields>)
    ensures r.Ok? <==> Placed(attrs)
    ensures r.Ok? ==> r.value == attrs
    ensures r.Err? ==> r.error.Keys == {"location"}
  {
    if !PyTruthy(Get(attrs, "is_remote")) && !PyTruthy(Get(attrs, "location")) then Err(LocationError)
    else Ok(attrs)
  }

  /** A remote listing needs no location, and a located one may be on site. */
  lemma PlacedCases(attrs: Fields)
    ensures Get(attrs, "is_remote") == JBool(true) ==> Validate(attrs).Ok?
    ensures PyTruthy(Get(attrs, "location")) ==> Validate(attrs).Ok?
    ensures "is_remote" !in attrs && "location" !in attrs ==> Validate(attrs) == Err(LocationError)
  {
  }

  /**
   * A partial update (PATCH) of an on-site listing that already has a
   * location, sending only a new title: the listing that would be saved is
   * placed, but `validate` sees only the title and refuses it.
   */
  lemma PartialUpdateRefused()
    ensures var stored := map["location" := JStr("Berlin"), "is_remote" := JBool(false)];
      var attrs := map["title" := JStr("Backend intern")];
      && Validate(attrs).Err?
      && Placed(stored + attrs)
  {
    var stored := map["location" := JStr("Berlin"), "is_remote" := JBool(false)];
    var attrs := map["title" := JStr("Backend intern")];
    assert Get(stored + attrs, "location") == JStr("Berlin");
  }

  /**
   * The rule checked against the listing as it will be saved: the stored
   * fields (none when creating) with the request's fields over them.
   */
  function ValidateUpdate(stored: Fields, attrs: Fields): (r: Result<Fields, Fields>)
    ensures r.Ok? <==> Placed(stored + attrs)
    ensures r.Ok? ==> r.value == attrs
    ensures r.Err? ==> r == Err(LocationError)
  {
    if Placed(stored + attrs) then Ok(attrs) else Err(LocationError)
  }

  /**
   * On creation, and whenever a request resends both fields, the corrected
   * rule decides exactly as the written one.
   */
  lemma ValidateUpdateAgrees(stored: Fields, attrs: Fields)
    requires stored == map[] || ("is_remote" in attrs && "location" in attrs)
    ensures ValidateUpdate(stored, attrs) == Validate(attrs)
  {
    assert Get(stored + attrs, "is_remote") == Get(attrs, "is_remote");
    assert Get(stored + attrs, "location") == Get(attrs, "location");
  }

  /**
   * `get_employer_logo`: no logo file gives `None`; otherwise the file's URL,
   * made absolute by the request when there is one.
   */
  function EmployerLogo(logo: string, storageUrl: string -> string, request: Option<string -> string>): (r: Option<string>)
    ensures r.None? <==> logo == ""
    ensures r.Some? && request.None? ==> r.value == storageUrl(logo)
    ensures r.Some? && request.Some? ==> r.value == request.value(storageUrl(logo))
  {
    if logo == "" then None
    else if request.Some? then Some(request.value(storageUrl(logo)))
    else Some(storageUrl(logo))
  }
}

/**
 * The profile tool the agent calls: the payload is validated (the
 * availability constraints are checked here, JSON decoding and type
 * coercion are a parameter), the fields left null are dropped, skills are
 * reshaped into `{"name": …}` entries, and the result is handed to the
 * profile serializer's partial update.
 */
module ProfileTools {
  import opened Wrappers
  import opened Text
  import opened Json
  import opened ToolResult
  import opened ProfileSerializer

  /** The three availability states. */
  datatype Status = Immediately | FromDate | Unavailable

  function StatusName(st: Status): string {
    match st
    case Immediately => "IMMEDIATELY"
    case FromDate => "FROM_DATE"
    case Unavailable => "UNAVAILABLE"
  }

  /** The `Literal[...]` check: exactly the three names are accepted. */
  function ParseStatus(s: string): (r: Option<Status>)
    ensures r.Some? <==> s in {"IMMEDIATELY", "FROM_DATE", "UNAVAILABLE"}
    ensures r.Some? ==> StatusName(r.value) == s
  {
    if s == "IMMEDIATELY" then Some(Immediately)
    else if s == "FROM_DATE" then Some(FromDate)
    else if s == "UNAVAILABLE" then Some(Unavailable)
    else None
  }

  /**
   * Availability as decoded, before its constraints and defaults. `None` is
   * a field not sent, and for `earliest_start` and `hours_per_week` also an
   * explicit null; an explicit null for either flag is a decoding error.
   */
  datatype RawAvailability = RawAvailability(
    status: string, earliestStart: Option<string>, hoursPerWeek: Option<int>,
    remoteOk: Option<bool>, onsiteOk: Option<bool>)

  /** `AvailabilityPayload` after validation; dates are ISO strings. */
  datatype Availability = Availability(
    status: Status, earliestStart: Option<string>, hoursPerWeek: Option<int>,
    remoteOk: bool, onsiteOk: bool)

  /** Weekly hours, when given, lie in 1..99. */
  predicate HoursOk(hours: Option<int>) {
    hours.None? || 1 <= hours.value <= 99
  }

  /** Availability from a date needs the date. */
  predicate StartOk(status: Status, start: Option<string>) {
    status == FromDate ==> start.Some?
  }

  /** What every validated availability satisfies. */
  predicate Acceptable(a: Availability) {
    HoursOk(a.hoursPerWeek) && StartOk(a.status, a.earliestStart)
  }

  /**
   * `AvailabilityPayload` validation: the status must be one of the three
   * names, hours must be in range, and a start date is required from
   * `FROM_DATE`; remote work defaults to allowed and on-site to not.
   */
  function ValidateAvailability(raw: RawAvailability): (r: Option<Availability>)
    ensures r.Some? <==>
      && ParseStatus(raw.status).Some?
      && HoursOk(raw.hoursPerWeek)
      && (raw.status == "FROM_DATE" ==> raw.earliestStart.Some?)
    ensures r.Some? ==> Acceptable(r.value) && StatusName(r.value.status) == raw.status
    ensures r.Some? ==>
      && r.value.earliestStart == raw.earliestStart && r.value.hoursPerWeek == raw.hoursPerWeek
      && r.value.remoteOk == raw.remoteOk.GetOr(true) && r.value.onsiteOk == raw.onsiteOk.GetOr(false)
  {
    var status := ParseStatus(raw.status);
    if status.None? || !HoursOk(raw.hoursPerWeek) || !StartOk(status.value, raw.earliestStart) then None
    else Some(Availability(status.value, raw.earliestStart, raw.hoursPerWeek, raw.remoteOk.GetOr(true), raw.onsiteOk.GetOr(false)))
  }

  /** The availability a client sends to describe `a` exactly. */
  function Sent(a: Availability): RawAvailability {
    RawAvailability(StatusName(a.status), a.earliestStart, a.hoursPerWeek, Some(a.remoteOk), Some(a.onsiteOk))
  }

  /** Every acceptable availability can be sent and comes back as itself. */
  lemma ValidateSent(a: Availability)
    requires Acceptable(a)
    ensures ValidateAvailability(Sent(a)) == Some(a)
  {
    match a.status
    case Immediately =>
    case FromDate =>
    case Unavailable =>
  }

  const AvailabilityKeys: set<string> := {"status", "earliest_start", "hours_per_week", "remote_ok", "onsite_ok"}

  function AvailabilityValue(a: Availability, key: string): Option<Json> {
    match key
    case "status" => Some(JStr(StatusName(a.status)))
    case "earliest_start" => if a.earliestStart.Some? then Some(JStr(a.earliestStart.value)) else None
    case "hours_per_week" => if a.hoursPerWeek.Some? then Some(JNum(a.hoursPerWeek.value as real)) else None
    case "remote_ok" => Some(JBool(a.remoteOk))
    case "onsite_ok" => Some(JBool(a.onsiteOk))
    case _ => None
  }

  /** The dumped availability: the null fields are left out, so it is never empty. */
  function DumpAvailability(a: Availability): (r: Fields)
    ensures r.Keys <= AvailabilityKeys
    ensures "status" in r && r["status"] == JStr(StatusName(a.status))
    ensures "remote_ok" in r && "onsite_ok" in r
    ensures "earliest_start" in r <==> a.earliestStart.Some?
    ensures "hours_per_week" in r <==> a.hoursPerWeek.Some?
  {
    map k | k in AvailabilityKeys && AvailabilityValue(a, k).Some? :: AvailabilityValue(a, k).value
  }

  /** `EducationPayload` as decoded; the grade is a number, range-checked by `ValidateProfile`. */
  datatype EducationPayload = EducationPayload(
    institution: string, degree: Option<string>, fieldOfStudy: Option<string>,
    startDate: string, endDate: Option<string>, gpa: Option<real>, description: Option<string>)

  const EducationKeys: set<string> := {"institution", "degree", "field_of_study", "start_date", "end_date", "gpa", "description"}

  /** `gpa: Optional[float] = Field(None, ge=0.0, le=4.0)`. */
  predicate GpaInRange(e: EducationPayload) {
    e.gpa.None? || 0.0 <= e.gpa.value <= 4.0
  }

  /** Every given education's grade is in range (no educations given is fine). */
  predicate EducationsValid(es: Option<seq<EducationPayload>>) {
    es.None? || forall i :: 0 <= i < |es.value| ==> GpaInRange(es.value[i])
  }

  function OptStr(v: Option<string>): Option<Json> {
    if v.Some? then Some(JStr(v.value)) else None
  }

  function EducationValue(e: EducationPayload, key: string): Option<Json> {
    match key
    case "institution" => Some(JStr(e.institution))
    case "degree" => OptStr(e.degree)
    case "field_of_study" => OptStr(e.fieldOfStudy)
    case "start_date" => Some(JStr(e.startDate))
    case "end_date" => OptStr(e.endDate)
    case "gpa" => if e.gpa.Some? then Some(JNum(e.gpa.value)) else None
    case "description" => OptStr(e.description)
    case _ => None
  }

  /** A dumped education: institution and start date always, the rest only when set. */
  function DumpEducation(e: EducationPayload): (r: Fields)
    ensures r.Keys <= EducationKeys
    ensures "institution" in r && "start_date" in r
    ensures r["institution"] == JStr(e.institution) && r["start_date"] == JStr(e.startDate)
    ensures "degree" in r <==> e.degree.Some?
    ensures "field_of_study" in r <==> e.fieldOfStudy.Some?
    ensures "end_date" in r <==> e.endDate.Some?
    ensures "gpa" in r <==> e.gpa.Some?
    ensures e.gpa.Some? ==> r["gpa"] == JNum(e.gpa.value)
    ensures "description" in r <==> e.description.Some?
  {
    map k | k in EducationKeys && EducationValue(e, k).Some? :: EducationValue(e, k).value
  }

  function DumpEducations(es: seq<EducationPayload>): (r: seq<Fields>)
    ensures |r| == |es|
    ensures forall i :: 0 <= i < |es| ==> r[i] == DumpEducation(es[i])
  {
    if es == [] then [] else DumpEducations(es[..|es| - 1]) + [DumpEducation(es[|es| - 1])]
  }

  /** A profile payload as decoded; every top-level field is optional. */
  datatype RawProfile = RawProfile(
    headline: Option<string>, bio: Option<string>, city: Option<string>, state: Option<string>, country: Option<string>,
    availability: Option<RawAvailability>, skills: Option<seq<string>>, educations: Option<seq<EducationPayload>>)

  /** `ProfilePayload` after validation. */
  datatype ProfilePayload = ProfilePayload(
    headline: Option<string>, bio: Option<string>, city: Option<string>, state: Option<string>, country: Option<string>,
    availability: Option<Availability>, skills: Option<seq<string>>, educations: Option<seq<EducationPayload>>)

  /** A profile payload is valid unless it carries an availability that is not, or a grade out of range. */
  function ValidateProfile(raw: RawProfile): (r: Option<ProfilePayload>)
    ensures r.None? <==>
      (raw.availability.Some? && ValidateAvailability(raw.availability.value).None?) || !EducationsValid(raw.educations)
    ensures r.Some? ==> (r.value.availability.Some? <==> raw.availability.Some?)
    ensures r.Some? && raw.availability.Some? ==> r.value.availability == ValidateAvailability(raw.availability.value)
    ensures r.Some? ==> r.value.skills == raw.skills && r.value.educations == raw.educations
  {
    var availability := if raw.availability.Some? then ValidateAvailability(raw.availability.value) else None;
    if (raw.availability.Some? && availability.None?) || !EducationsValid(raw.educations) then None
    else Some(ProfilePayload(raw.headline, raw.bio, raw.city, raw.state, raw.country, availability, raw.skills, raw.educations))
  }

  function ScalarValue(p: ProfilePayload, key: string): Option<Json> {
    match key
    case "headline" => OptStr(p.headline)
    case "bio" => OptStr(p.bio)
    case "city" => OptStr(p.city)
    case "state" => OptStr(p.state)
    case "country" => OptStr(p.country)
    case _ => None
  }

  /** `[{"name": s} for s in skills]`. */
  function Reshape(skills: seq<string>): (r: seq<Fields>)
    ensures |r| == |skills|
    ensures Named(r)
    ensures forall i :: 0 <= i < |r| ==> r[i].Keys == {"name"}
  {
    if skills == [] then [] else Reshape(skills[..|skills| - 1]) + [map["name" := JStr(skills[|skills| - 1])]]
  }

  /** The names read back out of skill entries. */
  function Names(entries: seq<Fields>): (r: seq<string>)
    requires Named(entries)
    ensures |r| == |entries|
  {
    if entries == [] then [] else Names(entries[..|entries| - 1]) + [entries[|entries| - 1]["name"].s]
  }

  /** Reshaping keeps every name, in order. */
  lemma {:induction false} NamesReshape(skills: seq<string>)
    ensures Names(Reshape(skills)) == skills
  {
    if skills != [] {
      var r := Reshape(skills);
      NamesReshape(skills[..|skills| - 1]);
      assert r[..|r| - 1] == Reshape(skills[..|skills| - 1]);
    }
  }

  /** The skill set a reshaped list leads to: the stripped, non-blank names given. */
  lemma ReshapedSkillSet(skills: seq<string>, n: string)
    ensures n in SkillNames(Reshape(skills)) <==> n != "" && exists i :: 0 <= i < |skills| && Trim(Py, skills[i]) == n
  {
    var r := Reshape(skills);
    NamesReshape(skills);
    assert forall i :: 0 <= i < |skills| ==> SkillName(r[i]) == Trim(Py, skills[i]) by {
      forall i | 0 <= i < |skills| ensures SkillName(r[i]) == Trim(Py, skills[i]) {
        NameAt(r, i);
      }
    }
    if n in SkillNames(r) {
      SkillNamesGiven(r, n);
    }
  }

  lemma {:induction false} NameAt(entries: seq<Fields>, i: int)
    requires Named(entries) && 0 <= i < |entries|
    ensures Names(entries)[i] == entries[i]["name"].s
  {
    if i < |entries| - 1 {
      NameAt(entries[..|entries| - 1], i);
    }
  }

  /**
   * The data handed to the serializer: the scalars that were set, the
   * availability (if given) as dumped, the skills reshaped and the
   * educations as dumped.
   */
  function Data(p: ProfilePayload): (r: Input)
    ensures r.scalars.Keys <= ScalarKeys
    ensures "headline" in r.scalars <==> p.headline.Some?
    ensures "bio" in r.scalars <==> p.bio.Some?
    ensures "city" in r.scalars <==> p.city.Some?
    ensures "state" in r.scalars <==> p.state.Some?
    ensures "country" in r.scalars <==> p.country.Some?
    ensures r.availability.Some? <==> p.availability.Some?
    ensures r.availability.Some? ==> r.availability.value != map[]
    ensures r.skills.Some? <==> p.skills.Some?
    ensures r.skills.Some? ==> Named(r.skills.value) && |r.skills.value| == |p.skills.value|
    ensures r.educations.Some? <==> p.educations.Some?
  {
    Input(
      map k | k in ScalarKeys && ScalarValue(p, k).Some? :: ScalarValue(p, k).value,
      if p.availability.Some? then Some(DumpAvailability(p.availability.value)) else None,
      if p.skills.Some? then Some(Reshape(p.skills.value)) else None,
      if p.educations.Some? then Some(DumpEducations(p.educations.value)) else None)
  }

  /**
   * `set_profile_fields_v1` on the user's profile: a payload that fails to
   * decode or validate, or data the serializer refuses, raises and changes
   * nothing; otherwise the profile is updated with the data and the result
   * is "profile_updated", with the saved data appended in debug mode.
   */
  method SetProfileFields(profile: Profile, payload: string, decode: string -> Option<RawProfile>,
                          accept: Input -> bool, debug: bool, dumps: Input -> string)
    returns (r: Result<string, ToolError>)
    modifies profile
    ensures decode(payload).None? || ValidateProfile(decode(payload).value).None? ==>
      r == Err(InvalidPayload) && profile.Current() == old(profile.Current())
    ensures decode(payload).Some? && ValidateProfile(decode(payload).value).Some? ==>
      var data := Data(ValidateProfile(decode(payload).value).value);
      if !accept(data) then r == Err(RejectedProfile) && profile.Current() == old(profile.Current())
      else r == Ok(Report("profile_updated", debug, dumps(data))) && profile.Current() == Updated(old(profile.Current()), data)
  {
    var raw := decode(payload);
    if raw.None? {
      return Err(InvalidPayload);
    }
    var p := ValidateProfile(raw.value);
    if p.None? {
      return Err(InvalidPayload);
    }
    var data := Data(p.value);
    if !accept(data) {
      return Err(RejectedProfile);
    }
    profile.Update(data);
    r := Ok(Report("profile_updated", debug, dumps(data)));
  }
}

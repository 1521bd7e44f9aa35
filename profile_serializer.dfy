/**
 * The profile serializer's writes over an abstract profile record: scalar
 * fields set one by one, the availability record upserted, the skill set
 * replaced by the stripped non-blank names, and the educations wiped and
 * recreated. Field validation itself is not modelled here; the input is
 * the data that passed it.
 */
module ProfileSerializer {
  import opened Wrappers
  import opened Text
  import opened Json

  /** The writable scalar fields of a profile. */
  const ScalarKeys: set<string> := {"headline", "bio", "city", "state", "country"}

  /** Fields a client may send but that are never written. */
  const ReadOnlyKeys: set<string> := {"id", "user", "updated_at"}

  /** A new profile's scalar fields before any are given (`country` defaults to "USA", text fields to ""). */
  const ProfileDefaults: Fields := map[
    "headline" := JStr(""), "bio" := JStr(""), "city" := JStr(""), "state" := JStr(""), "country" := JStr("USA")]

  /** A new availability record's fields before any are given. */
  const AvailabilityDefaults: Fields := map[
    "status" := JStr("IMMEDIATELY"), "earliest_start" := JNull, "hours_per_week" := JNull,
    "remote_ok" := JBool(true), "onsite_ok" := JBool(false)]

  /** Validated serializer input; a `None` part is a key the request did not carry. */
  datatype Input = Input(scalars: Fields, availability: Option<Fields>, skills: Option<seq<Fields>>, educations: Option<seq<Fields>>)

  /** The scalar data that is written: read-only and unknown fields are dropped. */
  function Writable(scalars: Fields): (r: Fields)
    ensures r.Keys == scalars.Keys * ScalarKeys
    ensures r.Keys * ReadOnlyKeys == {}
    ensures forall k :: k in r ==> r[k] == scalars[k]
  {
    map k | k in scalars && k in ScalarKeys :: scalars[k]
  }

  /** Every skill entry carries a string name, as validated skill data does. */
  predicate Named(skills: seq<Fields>) {
    forall i :: 0 <= i < |skills| ==> "name" in skills[i] && skills[i]["name"].JStr?
  }

  /** The stripped name of a skill entry. */
  function SkillName(entry: Fields): string
    requires "name" in entry && entry["name"].JStr?
  {
    Trim(Py, entry["name"].s)
  }

  /** The skill set named by the entries: stripped names, blanks left out, duplicates one skill. */
  function SkillNames(skills: seq<Fields>): (r: set<string>)
    requires Named(skills)
    ensures "" !in r
    ensures forall i :: 0 <= i < |skills| && SkillName(skills[i]) != "" ==> SkillName(skills[i]) in r
  {
    if skills == [] then {}
    else
      var rest := SkillNames(skills[..|skills| - 1]);
      assert forall i :: 0 <= i < |skills| - 1 ==> skills[i] == skills[..|skills| - 1][i];
      var name := SkillName(skills[|skills| - 1]);
      if name == "" then rest else rest + {name}
  }

  /** Every skill in the set was named by some entry. */
  lemma {:induction false} SkillNamesGiven(skills: seq<Fields>, n: string)
    requires Named(skills) && n in SkillNames(skills)
    ensures exists i :: 0 <= i < |skills| && SkillName(skills[i]) == n
  {
    var init := skills[..|skills| - 1];
    if n in SkillNames(init) {
      SkillNamesGiven(init, n);
      var i :| 0 <= i < |init| && SkillName(init[i]) == n;
      assert skills[i] == init[i];
    } else {
      assert SkillName(skills[|skills| - 1]) == n;
    }
  }

  /** Naming a skill again, or giving a blank name, adds nothing. */
  lemma {:induction false} SkillNamesRepeat(skills: seq<Fields>, entry: Fields)
    requires Named(skills) && "name" in entry && entry["name"].JStr?
    requires SkillName(entry) == "" || exists i :: 0 <= i < |skills| && SkillName(skills[i]) == SkillName(entry)
    ensures Named(skills + [entry])
    ensures SkillNames(skills + [entry]) == SkillNames(skills)
  {
    assert (skills + [entry])[..|skills|] == skills;
  }

  /** `update_or_create`: the existing record (or a new one with defaults) with the given fields set. */
  function Upserted(existing: Option<Fields>, data: Fields): (r: Fields)
    ensures forall k :: k in data ==> k in r && r[k] == data[k]
    ensures existing.Some? ==> forall k :: k in existing.value && k !in data ==> k in r && r[k] == existing.value[k]
    ensures existing.None? ==> forall k :: k in AvailabilityDefaults && k !in data ==> k in r && r[k] == AvailabilityDefaults[k]
  {
    (if existing.Some? then existing.value else AvailabilityDefaults) + data
  }

  /** A profile's stored state. */
  datatype State = State(scalars: Fields, availability: Option<Fields>, skills: set<string>, educations: seq<Fields>)

  /**
   * The state an update leaves: a partial update keeps every scalar it does
   * not carry, keeps availability unless non-empty data is given, and keeps
   * skills and educations unless their key is present (an empty list clears
   * them).
   */
  function Updated(s: State, v: Input): (r: State)
    requires v.skills.Some? ==> Named(v.skills.value)
    ensures forall k :: k in s.scalars && (k !in v.scalars || k !in ScalarKeys) ==> k in r.scalars && r.scalars[k] == s.scalars[k]
    ensures forall k :: k in v.scalars && k in ScalarKeys ==> k in r.scalars && r.scalars[k] == v.scalars[k]
    ensures forall k :: k in r.scalars ==> k in s.scalars || k in ScalarKeys
    ensures v.availability.None? || v.availability == Some(map[]) ==> r.availability == s.availability
    ensures v.skills.None? ==> r.skills == s.skills
    ensures v.skills == Some([]) ==> r.skills == {}
    ensures v.educations.None? ==> r.educations == s.educations
    ensures v.educations == Some([]) ==> r.educations == []
  {
    State(
      s.scalars + Writable(v.scalars),
      if v.availability.Some? && v.availability.value != map[] then Some(Upserted(s.availability, v.availability.value)) else s.availability,
      if v.skills.Some? then SkillNames(v.skills.value) else s.skills,
      if v.educations.Some? then v.educations.value else s.educations)
  }

  /** Applying the same update twice is applying it once. */
  lemma UpdatedIdempotent(s: State, v: Input)
    requires v.skills.Some? ==> Named(v.skills.value)
    ensures Updated(Updated(s, v), v) == Updated(s, v)
  {
    var once := Updated(s, v);
    assert once.scalars + Writable(v.scalars) == once.scalars;
    if v.availability.Some? && v.availability.value != map[] {
      assert Upserted(once.availability, v.availability.value) == once.availability.value;
    }
  }

  /** A profile record with its availability, skills and educations. */
  class Profile {
    var scalars: Fields
    var availability: Option<Fields>
    var skills: set<string>
    var educations: seq<Fields>

    function Current(): State
      reads this
    {
      State(scalars, availability, skills, educations)
    }

    /** `Profile.objects.create(**validated)`: the given scalars over the defaults, nothing related yet. */
    constructor (given: Fields)
      ensures Current() == State(ProfileDefaults + Writable(given), None, {}, [])
    {
      scalars := ProfileDefaults + Writable(given);
      availability := None;
      skills := {};
      educations := [];
    }

    /** `_upsert_availability`. */
    method UpsertAvailability(data: Fields)
      modifies this`availability
      ensures availability == Some(Upserted(old(availability), data))
    {
      var base := if availability.Some? then availability.value else AvailabilityDefaults;
      availability := Some(base + data);
    }

    /** `_set_skills`: the skill set becomes exactly the stripped, non-blank names given. */
    method SetSkills(entries: seq<Fields>)
      requires Named(entries)
      modifies this`skills
      ensures skills == SkillNames(entries)
    {
      var chosen: set<string> := {};
      for i := 0 to |entries|
        invariant chosen == SkillNames(entries[..i])
      {
        assert entries[..i + 1][..i] == entries[..i];
        var name := Trim(Py, entries[i]["name"].s);
        if name != "" {
          chosen := chosen + {name};
        }
      }
      assert entries[..|entries|] == entries;
      skills := chosen;
    }

    /** `_sync_educations`: every previous education is removed and the given ones are created in order. */
    method SyncEducations(entries: seq<Fields>)
      modifies this`educations
      ensures educations == entries
    {
      educations := [];
      for i := 0 to |entries|
        invariant educations == entries[..i]
      {
        educations := educations + [entries[i]];
      }
    }

    /** `update`: scalars are set, then availability, skills and educations are written when given. */
    method Update(validated: Input)
      requires validated.skills.Some? ==> Named(validated.skills.value)
      modifies this
      ensures Current() == Updated(old(Current()), validated)
    {
      scalars := scalars + Writable(validated.scalars);
      if validated.availability.Some? && validated.availability.value != map[] {
        UpsertAvailability(validated.availability.value);
      }
      if validated.skills.Some? {
        SetSkills(validated.skills.value);
      }
      if validated.educations.Some? {
        SyncEducations(validated.educations.value);
      }
    }
  }

  /**
   * `create`: availability must be given (otherwise it raises before
   * anything is stored); skills and educations default to none.
   */
  method Create(validated: Input) returns (r: Option<Profile>)
    requires validated.skills.Some? ==> Named(validated.skills.value)
    ensures r.None? <==> validated.availability.None?
    ensures r.Some? ==> fresh(r.value) && r.value.Current() == State(
      ProfileDefaults + Writable(validated.scalars),
      Some(Upserted(None, validated.availability.value)),
      SkillNames(validated.skills.GetOr([])),
      validated.educations.GetOr([]))
  {
    if validated.availability.None? {
      return None;
    }
    var profile := new Profile(validated.scalars);
    profile.UpsertAvailability(validated.availability.value);
    profile.SetSkills(validated.skills.GetOr([]));
    profile.SyncEducations(validated.educations.GetOr([]));
    r := Some(profile);
  }
}

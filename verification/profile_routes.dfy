/** The profile handlers: assembling the profile from a request body (with the
    comma-separated skills list), create-or-update, the experience and education
    entries, the profile lookups, and deleting a whole account. The private ones
    run after the authentication gate and receive the bound user's id as `caller`. */
module ProfileRoutes {
  import opened Schema
  import opened Http
  import opened JsString
  import opened JsArray
  import opened Store

  const MyProfileMissing := Response(400, Msg("Profile not found"))
  const UserProfileMissing := Response(400, Msg("Profile not Found"))
  const UserDeleted := Response(200, Msg("user deleted"))

  /** The body fields the create-or-update handler reads. */
  datatype ProfileInput = ProfileInput(
    company: Field,
    website: Field,
    location: Field,
    bio: Field,
    status: Field,
    githubusername: Field,
    skills: Field,
    youtube: Field,
    facebook: Field,
    twitter: Field,
    instagram: Field,
    linkedin: Field)

  /** The body fields of a new experience entry. */
  datatype ExperienceInput = ExperienceInput(
    title: Field, company: Field, location: Field, from: Field, to: Field,
    current: Option<bool>, description: Field)

  /** The body fields of a new education entry. */
  datatype EducationInput = EducationInput(
    school: Field, degree: Field, fieldofstudy: Field, from: Field, to: Field,
    current: Option<bool>, description: Field)

  /** The store step an account deletion can fail at. Deleting the posts is not
      atomic across posts: it can fail after some of them, those in `gone`, are
      already deleted. */
  datatype CascadeStep = PostsStep(gone: set<PostId>) | ProfileStep | UserStep

  /** `skills.split(',').map(skill => skill.trim())`: one entry per
      comma-separated piece, in order, each without a space at either end. */
  function ParseSkills(skills: string): (r: seq<string>)
    ensures |r| == Count(skills, ',') + 1
    ensures forall k :: 0 <= k < |r| ==> Unpadded(r[k]) && ',' !in r[k]
    ensures forall k :: 0 <= k < |r| ==> r[k] == Trim(Split(skills, ',')[k])
  {
    var parts := Split(skills, ',');
    var r := seq(|parts|, k requires 0 <= k < |parts| => Trim(parts[k]));
    assert forall k :: 0 <= k < |r| ==> ',' !in r[k] by {
      forall k | 0 <= k < |r| ensures ',' !in r[k] {
        TrimKeepsOut(parts[k], ',');
      }
    }
    r
  }

  /** An optional field of the assembled profile: present exactly when the body
      value is truthy, and then equal to it. */
  predicate KeptIfTruthy(out: Field, given: Field)
  {
    (out.Some? <==> Truthy(given)) && (out.Some? ==> out == given)
  }

  /** The value a field takes when it is copied only if truthy. */
  function IfTruthy(given: Field): (out: Field)
    ensures KeptIfTruthy(out, given)
  {
    if Truthy(given) then given else None
  }

  /** The `social` object: always there, holding only the truthy links. */
  function SocialFrom(body: ProfileInput): (s: Social)
    ensures KeptIfTruthy(s.youtube, body.youtube) && KeptIfTruthy(s.twitter, body.twitter)
    ensures KeptIfTruthy(s.facebook, body.facebook) && KeptIfTruthy(s.instagram, body.instagram)
    ensures KeptIfTruthy(s.linkedin, body.linkedin)
  {
    Social(IfTruthy(body.youtube), IfTruthy(body.twitter), IfTruthy(body.facebook),
           IfTruthy(body.instagram), IfTruthy(body.linkedin))
  }

  /** The profile fields a body gives: the caller as `user`, each optional field
      only when its value is truthy, the parsed skills when given, and the
      `social` object. */
  function FieldsFrom(caller: UserId, body: ProfileInput): (f: ProfileFields)
    ensures f.user == caller
    ensures KeptIfTruthy(f.company, body.company) && KeptIfTruthy(f.website, body.website)
    ensures KeptIfTruthy(f.location, body.location) && KeptIfTruthy(f.bio, body.bio)
    ensures KeptIfTruthy(f.status, body.status)
    ensures KeptIfTruthy(f.githubusername, body.githubusername)
    ensures f.skills.Some? <==> Truthy(body.skills)
    ensures f.skills.Some? ==> f.skills.value == ParseSkills(body.skills.value)
    ensures f.social == SocialFrom(body)
  {
    ProfileFields(
      caller,
      IfTruthy(body.company),
      IfTruthy(body.website),
      IfTruthy(body.location),
      IfTruthy(body.bio),
      IfTruthy(body.status),
      IfTruthy(body.githubusername),
      if Truthy(body.skills) then Some(ParseSkills(body.skills.value)) else None,
      SocialFrom(body))
  }

  /** The handler's field-by-field assembly of `profileFields`. */
  method BuildProfileFields(caller: UserId, body: ProfileInput) returns (f: ProfileFields)
    ensures f == FieldsFrom(caller, body)
  {
    f := ProfileFields(caller, None, None, None, None, None, None, None, NoSocial);
    if Truthy(body.company) { f := f.(company := body.company); }
    if Truthy(body.website) { f := f.(website := body.website); }
    if Truthy(body.location) { f := f.(location := body.location); }
    if Truthy(body.bio) { f := f.(bio := body.bio); }
    if Truthy(body.status) { f := f.(status := body.status); }
    if Truthy(body.githubusername) { f := f.(githubusername := body.githubusername); }
    if Truthy(body.skills) { f := f.(skills := Some(ParseSkills(body.skills.value))); }
    var social := BuildSocial(body);
    f := f.(social := social);
  }

  /** The handler's link-by-link assembly of `profileFields.social`. */
  method BuildSocial(body: ProfileInput) returns (s: Social)
    ensures s == SocialFrom(body)
  {
    s := NoSocial;
    if Truthy(body.youtube) { s := s.(youtube := body.youtube); }
    if Truthy(body.twitter) { s := s.(twitter := body.twitter); }
    if Truthy(body.facebook) { s := s.(facebook := body.facebook); }
    if Truthy(body.instagram) { s := s.(instagram := body.instagram); }
    if Truthy(body.linkedin) { s := s.(linkedin := body.linkedin); }
  }

  /** POST api/profile: the caller's profile is updated with `$set` when it
      exists, and created from the assembled fields otherwise. */
  method CreateOrUpdate(db: Db, caller: UserId, body: ProfileInput) returns (r: Response)
    requires db.Valid()
    modifies db
    ensures db.Valid()
    ensures db.users == old(db.users) && db.posts == old(db.posts)
    ensures caller in old(db.profiles) ==>
      var p := ApplySet(old(db.profiles[caller]), FieldsFrom(caller, body));
      r == Response(200, ProfileJson(p)) && db.profiles == old(db.profiles)[caller := p]
    ensures caller !in old(db.profiles) ==>
      var p := NewProfile(FieldsFrom(caller, body));
      r == Response(200, ProfileJson(p)) && db.profiles == old(db.profiles)[caller := p]
  {
    var fields := BuildProfileFields(caller, body);
    var existing := db.FindProfile(caller);
    if existing != null {
      var updated := db.SetProfileFields(fields);
      return Response(200, ProfileJson(updated.value));
    }
    var profile := NewProfile(fields);
    db.SaveProfile(profile);
    r := Response(200, ProfileJson(profile));
  }

  /** GET api/profile/me */
  method GetMyProfile(db: Db, caller: UserId) returns (r: Response)
    ensures caller !in db.profiles ==> r == MyProfileMissing
    ensures caller in db.profiles ==> r == Response(200, ProfileJson(db.profiles[caller]))
  {
    if caller !in db.profiles {
      return MyProfileMissing;
    }
    r := Response(200, ProfileJson(db.profiles[caller]));
  }

  /** GET api/profile/user/:user_id (public) */
  method GetProfileByUser(db: Db, uid: UserId) returns (r: Response)
    ensures uid !in db.profiles ==> r == UserProfileMissing
    ensures uid in db.profiles ==> r == Response(200, ProfileJson(db.profiles[uid]))
  {
    if uid !in db.profiles {
      return UserProfileMissing;
    }
    r := Response(200, ProfileJson(db.profiles[uid]));
  }

  /** DELETE api/profile: the caller's posts, then the caller's profile, then the
      caller's user record are removed; a store failure at one step answers 500
      and leaves the later steps undone. */
  method DeleteAccount(db: Db, caller: UserId, fault: Option<CascadeStep>) returns (r: Response)
    requires db.Valid()
    modifies db
    ensures db.Valid()
    ensures fault.Some? && fault.value.PostsStep? ==>
      r == InternalError && db.posts == PostsLeftAfterFailure(old(db.posts), caller, fault.value.gone)
      && db.profiles == old(db.profiles) && db.users == old(db.users)
    ensures fault.Some? && fault.value.PostsStep? ==>
      && (forall q :: q in db.posts ==> q in old(db.posts) && db.posts[q] == old(db.posts[q]))
      && (forall q :: q in old(db.posts) && old(db.posts[q]).user != caller ==> q in db.posts)
    ensures fault == Some(ProfileStep) ==>
      r == InternalError && db.posts == PostsNotBy(old(db.posts), caller)
      && db.profiles == old(db.profiles) && db.users == old(db.users)
    ensures fault == Some(UserStep) ==>
      r == InternalError && db.posts == PostsNotBy(old(db.posts), caller)
      && db.profiles == old(db.profiles) - {caller} && db.users == old(db.users)
    ensures fault == None ==>
      r == UserDeleted && db.posts == PostsNotBy(old(db.posts), caller)
      && db.profiles == old(db.profiles) - {caller} && db.users == old(db.users) - {caller}
  {
    if fault.Some? && fault.value.PostsStep? {
      db.DeletePostsByUntilFailure(caller, fault.value.gone);
      return InternalError;
    }
    db.DeletePostsBy(caller);
    if fault == Some(ProfileStep) {
      return InternalError;
    }
    db.RemoveProfile(caller);
    if fault == Some(UserStep) {
      return InternalError;
    }
    db.RemoveUser(caller);
    r := UserDeleted;
  }

  /** PUT api/profile/experience: the new entry, under an id no entry of the
      profile has, goes to the front; 500 when the caller has no profile. */
  method AddExperience(db: Db, caller: UserId, input: ExperienceInput, newId: EntryId)
    returns (r: Response)
    requires db.Valid()
    requires caller in db.profiles ==> newId !in ExperienceIds(db.profiles[caller].experience)
    modifies db
    ensures db.Valid()
    ensures db.users == old(db.users) && db.posts == old(db.posts)
    ensures caller !in old(db.profiles) ==> r == InternalError && db.profiles == old(db.profiles)
    ensures caller in old(db.profiles) ==>
      var p := old(db.profiles[caller]);
      var entry := Experience(newId, input.title, input.company, input.location,
                              input.from, input.to, input.current, input.description);
      var after := p.(experience := [entry] + p.experience);
      r == Response(200, ProfileJson(after)) && db.profiles == old(db.profiles)[caller := after]
  {
    var profile := db.FindProfile(caller);
    if profile == null {
      return InternalError;
    }
    profile.UnshiftExperience(Experience(newId, input.title, input.company, input.location,
                                         input.from, input.to, input.current, input.description));
    db.SaveProfile(profile.Value());
    r := Response(200, ProfileJson(profile.Value()));
  }

  /** DELETE api/profile/experience/:exp_id: the entry at `indexOf(expId)` is
      spliced out. Without a profile the error is swallowed and nothing is sent. */
  method DeleteExperience(db: Db, caller: UserId, expId: EntryId) returns (r: Option<Response>)
    requires db.Valid()
    modifies db
    ensures db.Valid()
    ensures db.users == old(db.users) && db.posts == old(db.posts)
    ensures caller !in old(db.profiles) ==> r == None && db.profiles == old(db.profiles)
    ensures caller in old(db.profiles) ==>
      var p := old(db.profiles[caller]);
      var after := p.(experience := SpliceOne(p.experience, IndexOf(ExperienceIds(p.experience), expId)));
      r == Some(Response(200, ProfileJson(after))) && db.profiles == old(db.profiles)[caller := after]
  {
    var profile := db.FindProfile(caller);
    if profile == null {
      return None;
    }
    var removeIndex := IndexOf(ExperienceIds(profile.experience), expId);
    profile.SpliceExperience(removeIndex);
    db.SaveProfile(profile.Value());
    r := Some(Response(200, ProfileJson(profile.Value())));
  }

  /** PUT api/profile/education: the new entry, under an id no entry of the
      profile has, goes to the front; 500 when the caller has no profile. */
  method AddEducation(db: Db, caller: UserId, input: EducationInput, newId: EntryId)
    returns (r: Response)
    requires db.Valid()
    requires caller in db.profiles ==> newId !in EducationIds(db.profiles[caller].education)
    modifies db
    ensures db.Valid()
    ensures db.users == old(db.users) && db.posts == old(db.posts)
    ensures caller !in old(db.profiles) ==> r == InternalError && db.profiles == old(db.profiles)
    ensures caller in old(db.profiles) ==>
      var p := old(db.profiles[caller]);
      var entry := Education(newId, input.school, input.degree, input.fieldofstudy,
                             input.from, input.to, input.current, input.description);
      var after := p.(education := [entry] + p.education);
      r == Response(200, ProfileJson(after)) && db.profiles == old(db.profiles)[caller := after]
  {
    var profile := db.FindProfile(caller);
    if profile == null {
      return InternalError;
    }
    profile.UnshiftEducation(Education(newId, input.school, input.degree, input.fieldofstudy,
                                       input.from, input.to, input.current, input.description));
    db.SaveProfile(profile.Value());
    r := Response(200, ProfileJson(profile.Value()));
  }

  /** DELETE api/profile/education/:edu_id: the entry at `indexOf(eduId)` is
      spliced out. Without a profile the error is swallowed and nothing is sent. */
  method DeleteEducation(db: Db, caller: UserId, eduId: EntryId) returns (r: Option<Response>)
    requires db.Valid()
    modifies db
    ensures db.Valid()
    ensures db.users == old(db.users) && db.posts == old(db.posts)
    ensures caller !in old(db.profiles) ==> r == None && db.profiles == old(db.profiles)
    ensures caller in old(db.profiles) ==>
      var p := old(db.profiles[caller]);
      var after := p.(education := SpliceOne(p.education, IndexOf(EducationIds(p.education), eduId)));
      r == Some(Response(200, ProfileJson(after))) && db.profiles == old(db.profiles)[caller := after]
  {
    var profile := db.FindProfile(caller);
    if profile == null {
      return None;
    }
    var removeIndex := IndexOf(EducationIds(profile.education), eduId);
    profile.SpliceEducation(removeIndex);
    db.SaveProfile(profile.Value());
    r := Some(Response(200, ProfileJson(profile.Value())));
  }

  /** Deleting an experience entry: with the id present, its first entry goes and
      the others keep their order; with the id absent, the last entry goes. */
  lemma ExperienceRemoval(entries: seq<Experience>, id: EntryId)
    ensures var after := SpliceOne(entries, IndexOf(ExperienceIds(entries), id));
      var i := IndexOf(ExperienceIds(entries), id);
      && (id in ExperienceIds(entries) ==>
            && 0 <= i && entries[i].id == id
            && (forall j :: 0 <= j < i ==> entries[j].id != id)
            && after == entries[..i] + entries[i + 1..])
      && (id !in ExperienceIds(entries) && |entries| > 0 ==> after == entries[..|entries| - 1])
      && (entries == [] ==> after == [])
  {
    var ids := ExperienceIds(entries);
    assert forall j :: 0 <= j < |entries| ==> ids[j] == entries[j].id;
    SpliceAtIndexOf(entries, ids, id);
  }

  /** Deleting an education entry: with the id present, its first entry goes and
      the others keep their order; with the id absent, the last entry goes. */
  lemma EducationRemoval(entries: seq<Education>, id: EntryId)
    ensures var after := SpliceOne(entries, IndexOf(EducationIds(entries), id));
      var i := IndexOf(EducationIds(entries), id);
      && (id in EducationIds(entries) ==>
            && 0 <= i && entries[i].id == id
            && (forall j :: 0 <= j < i ==> entries[j].id != id)
            && after == entries[..i] + entries[i + 1..])
      && (id !in EducationIds(entries) && |entries| > 0 ==> after == entries[..|entries| - 1])
      && (entries == [] ==> after == [])
  {
    var ids := EducationIds(entries);
    assert forall j :: 0 <= j < |entries| ==> ids[j] == entries[j].id;
    SpliceAtIndexOf(entries, ids, id);
  }

  /** Deleting the experience entry just added, by its id, gives back the list as it was. */
  lemma ExperienceDeleteUndoesAdd(entries: seq<Experience>, e: Experience)
    ensures var added := [e] + entries;
      SpliceOne(added, IndexOf(ExperienceIds(added), e.id)) == entries
  {
    var added := [e] + entries;
    assert ExperienceIds(added)[0] == e.id;
    RemoveAfterUnshift(entries, e);
  }

  /** Deleting the education entry just added, by its id, gives back the list as it was. */
  lemma EducationDeleteUndoesAdd(entries: seq<Education>, e: Education)
    ensures var added := [e] + entries;
      SpliceOne(added, IndexOf(EducationIds(added), e.id)) == entries
  {
    var added := [e] + entries;
    assert EducationIds(added)[0] == e.id;
    RemoveAfterUnshift(entries, e);
  }

  /** An update changes only what the body gives: re-sending the same body to an
      existing profile changes nothing more, and the experience and education
      entries survive any update. */
  lemma UpdateIdempotent(p: Profile, caller: UserId, body: ProfileInput)
    ensures var f := FieldsFrom(caller, body);
      ApplySet(ApplySet(p, f), f) == ApplySet(p, f)
      && ApplySet(p, f).experience == p.experience && ApplySet(p, f).education == p.education
  {
  }

  /** Retrying an account deletion whose post deletion failed part-way removes
      exactly the posts a deletion without failure would have removed. */
  lemma AccountDeletionRetryCompletes(posts: map<PostId, Post>, caller: UserId, gone: set<PostId>)
    ensures PostsNotBy(PostsLeftAfterFailure(posts, caller, gone), caller) == PostsNotBy(posts, caller)
  {
    var left := PostsLeftAfterFailure(posts, caller, gone);
    assert forall q :: q in PostsNotBy(left, caller) <==> q in PostsNotBy(posts, caller);
  }
}

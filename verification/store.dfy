/** The document store the handlers talk to (users, profiles keyed by the id of
    their user, posts), and the documents it hands out for in-place changes. A
    document found in the store is a fresh object; changes to it reach the store
    only when it is saved. */
module Store {
  import opened Schema
  import JsArray

  /** The store's `$set` update: every key present in `f` overwrites the
      profile's value; `social` is one key, so it is replaced as a whole; keys
      absent from `f`, and the experience and education arrays, are kept. */
  function ApplySet(p: Profile, f: ProfileFields): (r: Profile)
    ensures r.user == f.user
    ensures f.company.Some? ==> r.company == f.company
    ensures f.company.None? ==> r.company == p.company
    ensures f.website.Some? ==> r.website == f.website
    ensures f.website.None? ==> r.website == p.website
    ensures f.location.Some? ==> r.location == f.location
    ensures f.location.None? ==> r.location == p.location
    ensures f.bio.Some? ==> r.bio == f.bio
    ensures f.bio.None? ==> r.bio == p.bio
    ensures f.status.Some? ==> r.status == f.status
    ensures f.status.None? ==> r.status == p.status
    ensures f.githubusername.Some? ==> r.githubusername == f.githubusername
    ensures f.githubusername.None? ==> r.githubusername == p.githubusername
    ensures f.skills.Some? ==> r.skills == f.skills.value
    ensures f.skills.None? ==> r.skills == p.skills
    ensures r.social == f.social
    ensures r.experience == p.experience && r.education == p.education
  {
    Profile(
      f.user,
      if f.company.Some? then f.company else p.company,
      if f.website.Some? then f.website else p.website,
      if f.location.Some? then f.location else p.location,
      if f.bio.Some? then f.bio else p.bio,
      if f.status.Some? then f.status else p.status,
      if f.githubusername.Some? then f.githubusername else p.githubusername,
      if f.skills.Some? then f.skills.value else p.skills,
      f.social,
      p.experience,
      p.education)
  }

  /** `new Profile(profileFields)`: the keys given, empty arrays for the rest. */
  function NewProfile(f: ProfileFields): (r: Profile)
    ensures r.user == f.user && r.social == f.social
    ensures r.company == f.company && r.website == f.website && r.location == f.location
    ensures r.bio == f.bio && r.status == f.status && r.githubusername == f.githubusername
    ensures r.skills == (if f.skills.Some? then f.skills.value else [])
    ensures r.experience == [] && r.education == []
  {
    Profile(f.user, f.company, f.website, f.location, f.bio, f.status, f.githubusername,
            if f.skills.Some? then f.skills.value else [], f.social, [], [])
  }

  /** The posts that remain once every post written by `u` is deleted. */
  function PostsNotBy(posts: map<PostId, Post>, u: UserId): (r: map<PostId, Post>)
    ensures forall p :: p in r <==> p in posts && posts[p].user != u
    ensures forall p :: p in r ==> r[p] == posts[p]
  {
    map p | p in posts && posts[p].user != u :: posts[p]
  }

  /** The posts that remain when deleting every post written by `u` fails after
      those of them in `gone` were deleted: the deletion is not atomic across
      posts, so the result lies between `PostsNotBy(posts, u)` and `posts`. */
  function PostsLeftAfterFailure(posts: map<PostId, Post>, u: UserId, gone: set<PostId>)
    : (r: map<PostId, Post>)
    ensures forall p :: p in r <==> p in posts && (posts[p].user != u || p !in gone)
    ensures forall p :: p in r ==> r[p] == posts[p]
  {
    map p | p in posts && (posts[p].user != u || p !in gone) :: posts[p]
  }

  /** A post document loaded for a request: its likes and comments are arrays the
      handler changes in place with `unshift` and `splice`. */
  class PostDoc {
    const loaded: Post
    var likes: seq<Like>
    var comments: seq<Comment>

    /** The post this document would save. */
    function Value(): (p: Post)
      reads this
      ensures p == loaded.(likes := likes, comments := comments)
    {
      loaded.(likes := likes, comments := comments)
    }

    constructor (p: Post)
      ensures loaded == p && Value() == p
    {
      loaded := p;
      likes := p.likes;
      comments := p.comments;
    }

    /** `likes.unshift(like)` */
    method UnshiftLike(like: Like)
      modifies this
      ensures likes == [like] + old(likes) && comments == old(comments)
    {
      likes := [like] + likes;
    }

    /** `likes.splice(start, 1)` */
    method SpliceLike(start: int)
      modifies this
      ensures likes == JsArray.SpliceOne(old(likes), start) && comments == old(comments)
    {
      likes := JsArray.SpliceOne(likes, start);
    }

    /** `comments.unshift(comment)` */
    method UnshiftComment(comment: Comment)
      modifies this
      ensures comments == [comment] + old(comments) && likes == old(likes)
    {
      comments := [comment] + comments;
    }

    /** `comments.splice(start, 1)` */
    method SpliceComment(start: int)
      modifies this
      ensures comments == JsArray.SpliceOne(old(comments), start) && likes == old(likes)
    {
      comments := JsArray.SpliceOne(comments, start);
    }
  }

  /** A profile document loaded for a request: its experience and education
      arrays are changed in place. */
  class ProfileDoc {
    const loaded: Profile
    var experience: seq<Experience>
    var education: seq<Education>

    function Value(): (p: Profile)
      reads this
      ensures p == loaded.(experience := experience, education := education)
    {
      loaded.(experience := experience, education := education)
    }

    constructor (p: Profile)
      ensures loaded == p && Value() == p
    {
      loaded := p;
      experience := p.experience;
      education := p.education;
    }

    /** `experience.unshift(entry)` */
    method UnshiftExperience(entry: Experience)
      modifies this
      ensures experience == [entry] + old(experience) && education == old(education)
    {
      experience := [entry] + experience;
    }

    /** `experience.splice(start, 1)` */
    method SpliceExperience(start: int)
      modifies this
      ensures experience == JsArray.SpliceOne(old(experience), start) && education == old(education)
    {
      experience := JsArray.SpliceOne(experience, start);
    }

    /** `education.unshift(entry)` */
    method UnshiftEducation(entry: Education)
      modifies this
      ensures education == [entry] + old(education) && experience == old(experience)
    {
      education := [entry] + education;
    }

    /** `education.splice(start, 1)` */
    method SpliceEducation(start: int)
      modifies this
      ensures education == JsArray.SpliceOne(old(education), start) && experience == old(experience)
    {
      education := JsArray.SpliceOne(education, start);
    }
  }

  class Db {
    var users: map<UserId, User>
    var profiles: map<UserId, Profile>
    var posts: map<PostId, Post>

    /** Every document sits under its own id, a profile under its user's id, and
        no user likes a post twice. */
    ghost predicate Valid()
      reads this
    {
      && (forall u :: u in users ==> users[u].id == u)
      && (forall u :: u in profiles ==> profiles[u].user == u)
      && (forall p :: p in posts ==> posts[p].id == p && Distinct(Likers(posts[p].likes)))
    }

    constructor ()
      ensures Valid() && users == map[] && profiles == map[] && posts == map[]
    {
      users, profiles, posts := map[], map[], map[];
    }

    /** `Post.findById(pid)` */
    method FindPost(pid: PostId) returns (doc: PostDoc?)
      ensures doc == null <==> pid !in posts
      ensures doc != null ==> fresh(doc) && doc.loaded == posts[pid] && doc.Value() == posts[pid]
    {
      if pid in posts {
        doc := new PostDoc(posts[pid]);
      } else {
        doc := null;
      }
    }

    /** `post.save()`, for a post new or loaded */
    method SavePost(p: Post)
      requires Valid() && Distinct(Likers(p.likes))
      modifies this
      ensures Valid()
      ensures posts == old(posts)[p.id := p]
      ensures users == old(users) && profiles == old(profiles)
    {
      posts := posts[p.id := p];
    }

    /** `post.remove()` */
    method RemovePost(pid: PostId)
      requires Valid()
      modifies this
      ensures Valid()
      ensures posts == old(posts) - {pid}
      ensures users == old(users) && profiles == old(profiles)
    {
      posts := posts - {pid};
    }

    /** `Post.deleteMany({ user: u })` */
    method DeletePostsBy(u: UserId)
      requires Valid()
      modifies this
      ensures Valid()
      ensures posts == PostsNotBy(old(posts), u)
      ensures users == old(users) && profiles == old(profiles)
    {
      posts := PostsNotBy(posts, u);
    }

    /** `Post.deleteMany({ user: u })` failing after it deleted the posts of `u`
        whose ids are in `gone` */
    method DeletePostsByUntilFailure(u: UserId, gone: set<PostId>)
      requires Valid()
      modifies this
      ensures Valid()
      ensures posts == PostsLeftAfterFailure(old(posts), u, gone)
      ensures users == old(users) && profiles == old(profiles)
    {
      posts := PostsLeftAfterFailure(posts, u, gone);
    }

    /** `Profile.findOne({ user: u })` */
    method FindProfile(u: UserId) returns (doc: ProfileDoc?)
      ensures doc == null <==> u !in profiles
      ensures doc != null ==> fresh(doc) && doc.loaded == profiles[u] && doc.Value() == profiles[u]
    {
      if u in profiles {
        doc := new ProfileDoc(profiles[u]);
      } else {
        doc := null;
      }
    }

    /** `profile.save()`, for a profile new or loaded */
    method SaveProfile(p: Profile)
      requires Valid()
      modifies this
      ensures Valid()
      ensures profiles == old(profiles)[p.user := p]
      ensures users == old(users) && posts == old(posts)
    {
      profiles := profiles[p.user := p];
    }

    /** `Profile.findOneAndUpdate({ user: f.user }, { $set: f }, { new: true })` */
    method SetProfileFields(f: ProfileFields) returns (updated: Option<Profile>)
      requires Valid()
      modifies this
      ensures Valid()
      ensures f.user in old(profiles) ==>
        updated == Some(ApplySet(old(profiles[f.user]), f))
        && profiles == old(profiles)[f.user := ApplySet(old(profiles[f.user]), f)]
      ensures f.user !in old(profiles) ==> updated == None && profiles == old(profiles)
      ensures users == old(users) && posts == old(posts)
    {
      if f.user in profiles {
        var p := ApplySet(profiles[f.user], f);
        profiles := profiles[f.user := p];
        updated := Some(p);
      } else {
        updated := None;
      }
    }

    /** `Profile.findOneAndRemove({ user: u })` */
    method RemoveProfile(u: UserId)
      requires Valid()
      modifies this
      ensures Valid()
      ensures profiles == old(profiles) - {u}
      ensures users == old(users) && posts == old(posts)
    {
      profiles := profiles - {u};
    }

    /** `User.findOneAndRemove({ _id: u })` */
    method RemoveUser(u: UserId)
      requires Valid()
      modifies this
      ensures Valid()
      ensures users == old(users) - {u}
      ensures profiles == old(profiles) && posts == old(posts)
    {
      users := users - {u};
    }
  }
}

/** The documents the backend keeps: users, profiles and posts, as plain values.
    Identifiers are the string form of the store's object ids; the handlers compare
    them with `toString()` and `===`, which here is equality of strings. */
module Schema {

  datatype Option<+T> = None | Some(value: T)

  type UserId = string
  type PostId = string
  type CommentId = string
  type EntryId = string

  /** A field of a request body: absent (`undefined`), or the string the client sent. */
  type Field = Option<string>

  /** JavaScript truthiness of a body field: a string is truthy unless it is empty. */
  predicate Truthy(v: Field)
  {
    v.Some? && v.value != ""
  }

  /** A registered principal, without its email and password hash (never read by the core). */
  datatype User = User(id: UserId, name: string, avatar: string)

  datatype Like = Like(user: UserId)

  datatype Comment = Comment(id: CommentId, user: UserId, text: string, name: string, avatar: string)

  datatype Post = Post(
    id: PostId,
    user: UserId,
    text: string,
    name: string,
    avatar: string,
    likes: seq<Like>,
    comments: seq<Comment>)

  datatype Social = Social(
    youtube: Field,
    twitter: Field,
    facebook: Field,
    instagram: Field,
    linkedin: Field)

  const NoSocial := Social(None, None, None, None, None)

  datatype Experience = Experience(
    id: EntryId,
    title: Field,
    company: Field,
    location: Field,
    from: Field,
    to: Field,
    current: Option<bool>,
    description: Field)

  datatype Education = Education(
    id: EntryId,
    school: Field,
    degree: Field,
    fieldofstudy: Field,
    from: Field,
    to: Field,
    current: Option<bool>,
    description: Field)

  /** A profile is stored under the id of the user it belongs to. Array paths
      (skills, experience, education) default to the empty array. */
  datatype Profile = Profile(
    user: UserId,
    company: Field,
    website: Field,
    location: Field,
    bio: Field,
    status: Field,
    githubusername: Field,
    skills: seq<string>,
    social: Social,
    experience: seq<Experience>,
    education: seq<Education>)

  /** The object the profile handler assembles from a request body before it
      writes it to the store: only the keys that are present are written. */
  datatype ProfileFields = ProfileFields(
    user: UserId,
    company: Field,
    website: Field,
    location: Field,
    bio: Field,
    status: Field,
    githubusername: Field,
    skills: Option<seq<string>>,
    social: Social)

  /** `likes.map(like => like.user.toString())` */
  function Likers(likes: seq<Like>): seq<UserId>
  {
    seq(|likes|, k requires 0 <= k < |likes| => likes[k].user)
  }

  /** `comments.map(comment => comment.user.toString())` */
  function CommentAuthors(comments: seq<Comment>): seq<UserId>
  {
    seq(|comments|, k requires 0 <= k < |comments| => comments[k].user)
  }

  /** `experience.map(item => item.id)` */
  function ExperienceIds(entries: seq<Experience>): seq<EntryId>
  {
    seq(|entries|, k requires 0 <= k < |entries| => entries[k].id)
  }

  /** `education.map(item => item.id)` */
  function EducationIds(entries: seq<Education>): seq<EntryId>
  {
    seq(|entries|, k requires 0 <= k < |entries| => entries[k].id)
  }

  /** No value occurs twice. */
  predicate Distinct<T(==)>(s: seq<T>)
  {
    forall i, j :: 0 <= i < j < |s| ==> s[i] != s[j]
  }
}

/** What a handler sends back: a status and a JSON (or plain text) body. */
module Http {
  import opened Schema

  datatype Body =
    | Msg(msg: string)                   // `res.json({ msg })`
    | Text(text: string)                 // `res.send(text)`
    | LikesJson(likes: seq<Like>)
    | CommentsJson(comments: seq<Comment>)
    | PostJson(post: Post)
    | ProfileJson(profile: Profile)

  datatype Response = Response(status: int, body: Body)

  const InternalError := Response(500, Text("Internal Server Error"))
}

# devConnector backend: authentication gate, post and profile handlers

This project models the parts of the devConnector REST backend whose behaviour
can be stated exactly, and proves properties of that model:

- **The authentication gate** (`middleware/auth.js`). It reads the bearer token
  from the `x-auth-token` header only. A missing or empty token gets
  401 `No Token,authorization denied`. A token the token library refuses gets
  401 `Token not valid,authorization denied`, whatever the reason was: malformed,
  bad signature or expired. Otherwise the gate binds the decoded user to
  `req.user` and calls the next handler exactly once. The token library's
  `verify` is a function parameter, an oracle whose internals are not modelled.
- **The post handlers** (`routes/api/post.js`). They create a post, look one up,
  delete one (existence is checked before ownership), like and unlike a post,
  and add and delete comments. Likes and comments are ordered arrays that a
  loaded post document changes in place with `unshift` and `splice` before it
  is saved.
- **The profile handlers** (`routes/api/profile.js`). They assemble the profile
  fields from a request body, including the comma-separated skills list. They
  create or update the caller's profile with a `$set`, look profiles up, add and
  delete experience and education entries, and delete a whole account
  (posts, then profile, then user).

The store is a class `Store.Db` holding three maps: users by id, profiles by
the id of their user, and posts by id. `Store.PostDoc` and `Store.ProfileDoc`
are the documents a handler loads, changes in place and saves. Every handler
outcome is an `Http.Response` made of a status and a body. Handlers run one
request at a time. The id a new post, comment or entry receives is a parameter
standing for the store's id generator. Each handler requires that id to be
fresh, as an ObjectId is: unused by the stored posts, by the post's comments or
by the profile's entries.

`Db.Valid()` is the store invariant that every state-changing handler keeps. It
says each document sits under its own id, each profile sits under its user's id,
and no user appears twice among a post's likers.

The JavaScript library calls the handlers depend on are modelled with their edge
cases made explicit:
- `Array.prototype.indexOf` answers -1 for a missing value.
- `Array.prototype.splice(start, 1)` counts a negative start from the end.
- `String.prototype.split(',')` gives n + 1 pieces for n commas.
- `String.prototype.trim` strips ECMAScript's WhiteSpace and LineTerminator characters.

Two quirks of the handlers are reproduced as written, and lemmas exhibit them:

- **Comment deletion.** The handler checks that the requested comment exists and
  belongs to the caller. It then removes the caller's *first* comment, found by
  author rather than by id. `PostRoutes.DeleteCommentRemovesAnother` shows a
  request for the caller's second comment that removes the first one.
- **Entry deletion by a missing id.** Deleting an experience or education entry
  whose id is absent makes `indexOf` give -1, and `splice(-1, 1)` then drops the
  last entry. `ProfileRoutes.ExperienceRemoval` and
  `ProfileRoutes.EducationRemoval` state this.

Three further behaviours of the handlers shape the model:

- **Account deletion.** It removes the caller's posts, then the profile, then
  the user record, and stops at the first failing step: the later steps are
  skipped and the answer is 500. Deleting the posts is not atomic across posts,
  so a failure there can leave some of the caller's posts deleted and others not.
- **Foreign resources.** Deleting someone else's post or comment answers 401
  `User not Authorised`.
- **Likes.** A post's likes are an ordered list, newest first. Unlike removes
  the first entry with the caller's id.

## Model

| member | source | states |
|---|---|---|
| AuthMiddleware.TokenOf | middleware/auth.js:6 | the token is the value of the `x-auth-token` header and nothing else; absent when the header is absent |
| AuthMiddleware.Decide | middleware/auth.js:9-21 | 401 "No Token" exactly when the token is not truthy; 401 "Token not valid" exactly when a truthy token is refused by the oracle; pass-on exactly when it is decoded, with the decoded user |
| AuthMiddleware.Request.Next | middleware/auth.js:17 | calling `next()` enters the downstream handler once more and leaves `req.user` as it is |
| AuthMiddleware.Authenticate | middleware/auth.js:4-21 | on rejection the 401 answer is sent, `req.user` is untouched and `next` is not called; on success nothing is sent, `req.user` is the decoded user and `next` is called exactly once |
| AuthMiddleware.MissingTokenRefused | middleware/auth.js:9-12 | a request whose `x-auth-token` header is absent or empty is refused with "No Token", whatever the oracle would say |
| AuthMiddleware.RefusalsIndistinguishable | middleware/auth.js:14-21 | any two refusals of the same token, whatever their reasons, give the same answer |
| AuthMiddleware.OnlyTokenHeaderRead | middleware/auth.js:4-21 | two requests that agree on the `x-auth-token` header get the same decision, whatever their other headers |
| AuthMiddleware.GateOnFreshRequest | middleware/auth.js:15-17 | a fresh request that is rejected ends with no identity, no downstream call and a 401; an accepted one ends with the oracle's decoded user bound and exactly one downstream call |
| JsArray.IndexOf | routes/api/post.js:134-136 | the result is -1 exactly when the value is absent; otherwise it is a position holding the value with no earlier occurrence |
| JsArray.SpliceStart | routes/api/profile.js:213 | a start in range is kept; a negative start down to minus the length counts back from the end; the result never exceeds the length |
| JsArray.SpliceOne | routes/api/post.js:137 | when the actual start is inside the array, exactly one element goes and the rest keep their order; past the end nothing changes |
| JsArray.SpliceMinusOneDropsLast | routes/api/profile.js:210-213 | `splice(-1, 1)` on a non-empty array removes its last element |
| JsArray.RemoveFirstOccurrence | routes/api/post.js:134-137 | splicing at `indexOf(x)` removes exactly the first occurrence of x: prefix and suffix kept, multiset minus one x |
| JsArray.RemoveAfterUnshift | routes/api/post.js:108 | removing at `indexOf(x)` right after `unshift(x)` gives the original array back |
| JsArray.SpliceAtIndexOf | routes/api/profile.js:268-271 | splicing at the index of a key removes the element with its first occurrence when present, the last element when absent, and nothing from an empty array |
| JsString.Split | routes/api/profile.js:77 | n separators give n + 1 pieces, and no piece contains the separator |
| JsString.JoinSplit | routes/api/profile.js:77 | joining the pieces of a split with the separator gives the string back |
| JsString.SplitJoin | routes/api/profile.js:77 | separator-free pieces are recovered by splitting their join |
| JsString.SplitPiece | routes/api/profile.js:77 | a string without the separator splits into itself alone |
| JsString.SplitSeparated | routes/api/profile.js:77 | a separator-free piece followed by the separator contributes exactly that piece in front |
| JsString.TrimStart | routes/api/profile.js:77 | the result is the suffix left after dropping all leading spaces; it does not start with a space |
| JsString.TrimEnd | routes/api/profile.js:77 | the result is the prefix left after dropping all trailing spaces; it does not end with a space |
| JsString.Trim | routes/api/profile.js:77 | the result is the contiguous piece between an all-space prefix and an all-space suffix, with no space at either end |
| JsString.TrimUnpadded | routes/api/profile.js:77 | a string with no space at either end is left as it is |
| JsString.TrimKeepsOut | routes/api/profile.js:77 | trimming never introduces a character the input lacked |
| Store.ApplySet | routes/api/profile.js:92-96 | `$set` overwrites exactly the keys present in the fields, replaces `social` whole, keeps every other value and the experience and education arrays |
| Store.NewProfile | routes/api/profile.js:100 | a new profile has the given fields, empty skills when none given, and empty experience and education |
| Store.PostsNotBy | routes/api/profile.js:152 | a post remains exactly when its author is not the given user, and remaining posts are unchanged |
| Store.PostsLeftAfterFailure | routes/api/profile.js:152 | after a deletion that failed part-way, a post remains exactly when it is by another user or by the given user but not yet deleted; remaining posts are unchanged |
| Store.PostDoc.Value | routes/api/post.js:109 | the saved post is the loaded one with the document's current likes and comments, every other field as loaded |
| Store.PostDoc.constructor | routes/api/post.js:73 | a loaded document saves back to the very post it was loaded from |
| Store.PostDoc.UnshiftLike | routes/api/post.js:108 | the like is put in front; comments unchanged |
| Store.PostDoc.SpliceLike | routes/api/post.js:137 | the likes become the `splice(start, 1)` of the old likes; comments unchanged |
| Store.PostDoc.UnshiftComment | routes/api/post.js:170 | the comment is put in front; likes unchanged |
| Store.PostDoc.SpliceComment | routes/api/post.js:208 | the comments become the `splice(start, 1)` of the old comments; likes unchanged |
| Store.ProfileDoc.Value | routes/api/profile.js:194 | the saved profile is the loaded one with the document's current experience and education, every other field as loaded |
| Store.ProfileDoc.constructor | routes/api/profile.js:208 | a loaded document saves back to the very profile it was loaded from |
| Store.ProfileDoc.UnshiftExperience | routes/api/profile.js:193 | the entry is put in front of the experience; education unchanged |
| Store.ProfileDoc.SpliceExperience | routes/api/profile.js:213 | the experience becomes the `splice(start, 1)` of the old one; education unchanged |
| Store.ProfileDoc.UnshiftEducation | routes/api/profile.js:251 | the entry is put in front of the education; experience unchanged |
| Store.ProfileDoc.SpliceEducation | routes/api/profile.js:271 | the education becomes the `splice(start, 1)` of the old one; experience unchanged |
| Store.Db.FindPost | routes/api/post.js:73 | no document exactly when the id is unknown; otherwise a fresh document of the stored post |
| Store.Db.SavePost | routes/api/post.js:109 | the post is stored under its id, nothing else changes, and the invariant is kept given distinct likers |
| Store.Db.RemovePost | routes/api/post.js:82 | only that post leaves the store |
| Store.Db.DeletePostsBy | routes/api/profile.js:152 | exactly the posts of that user leave the store |
| Store.Db.DeletePostsByUntilFailure | routes/api/profile.js:152 | only posts of that user among those already deleted leave the store |
| Store.Db.FindProfile | routes/api/profile.js:208 | no document exactly when the user has no profile; otherwise a fresh document of it |
| Store.Db.SaveProfile | routes/api/profile.js:194 | the profile is stored under its user's id and nothing else changes |
| Store.Db.SetProfileFields | routes/api/profile.js:92-96 | an existing profile becomes its `$set` update and is returned; without a profile nothing changes |
| Store.Db.RemoveProfile | routes/api/profile.js:154 | only that user's profile leaves the store |
| Store.Db.RemoveUser | routes/api/profile.js:155 | only that user's record leaves the store |
| PostRoutes.LikesBy | routes/api/post.js:102-105 | every filtered like is the caller's, and the filter is empty exactly when the caller is not among the likers |
| PostRoutes.FindComment | routes/api/post.js:193-195 | nothing exactly when no comment has the id; otherwise the first comment with that id |
| PostRoutes.CreatePost | routes/api/post.js:20-30 | the new post has the caller as author, the caller's name and avatar, the body text and no likes or comments, under an id no stored post has, so every stored post stays as it was; 500 and no change when the caller's record is gone |
| PostRoutes.GetPost | routes/api/post.js:53-59 | 404 "Post not found" for an unknown id, the stored post otherwise |
| PostRoutes.DeletePost | routes/api/post.js:71-83 | unknown post: 404 and no change; someone else's post: 401 and the post stays; own post: it alone is removed and "Post Removed" answered |
| PostRoutes.LikePost | routes/api/post.js:95-110 | unknown post: 404; caller already a liker: 400 and likes unchanged; otherwise the caller is put in front and the new likes returned; likers stay distinct |
| PostRoutes.UnlikePost | routes/api/post.js:120-139 | unknown post: 404; caller not a liker: 400 and likes unchanged; otherwise the like at the caller's first index is spliced out and the likes returned |
| PostRoutes.AddComment | routes/api/post.js:157-172 | unknown post: 404; caller's record gone: 500; otherwise a comment with a fresh id, the body text and the caller's id, name and avatar is put in front and the comments returned |
| PostRoutes.DeleteComment | routes/api/post.js:185-210 | unknown post: 404; unknown comment: 404 "Comment does not exist"; someone else's comment: 401 and no change; otherwise the caller's first comment is spliced out |
| PostRoutes.LikeKeepsLikersDistinct | routes/api/post.js:102-108 | a like from a non-liker keeps every liker id distinct |
| PostRoutes.UnlikeKeepsLikersDistinct | routes/api/post.js:133-137 | removing one like keeps every liker id distinct |
| PostRoutes.UnlikeRemovesCallersLike | routes/api/post.js:133-137 | a successful unlike removes exactly the caller's first like, keeps the others in order, shortens the list by one, and with distinct likers leaves the caller no longer a liker |
| PostRoutes.UnlikeUndoesLike | routes/api/post.js:95-139 | an unlike right after a like gives back the likes as they were |
| PostRoutes.DeleteCommentRemovesCallersFirst | routes/api/post.js:204-208 | the removed comment is the caller's first one, no earlier comment is the caller's, and the others keep their order |
| PostRoutes.DeleteCommentRemovesAnother | routes/api/post.js:193-208 | for comments c1 then c2 by the caller, a request to delete c2 finds c2 yet leaves exactly c2 behind |
| ProfileRoutes.ParseSkills | routes/api/profile.js:76-77 | n commas give n + 1 skills, in order, each the trim of its piece, none with a space at either end or a comma |
| ProfileRoutes.IfTruthy | routes/api/profile.js:70 | a field is kept exactly when its body value is truthy |
| ProfileRoutes.SocialFrom | routes/api/profile.js:80-86 | `social` is always present and holds exactly the truthy links |
| ProfileRoutes.FieldsFrom | routes/api/profile.js:68-86 | `user` is the caller; each optional field is present exactly when its body value is truthy; skills are the parsed list exactly when given; `social` as above |
| ProfileRoutes.BuildProfileFields | routes/api/profile.js:67-86 | the conditional assignments build exactly the fields `FieldsFrom` describes |
| ProfileRoutes.BuildSocial | routes/api/profile.js:79-86 | the conditional assignments build exactly the `social` object `SocialFrom` describes |
| ProfileRoutes.CreateOrUpdate | routes/api/profile.js:88-102 | an existing profile becomes its `$set` update with the body's fields; otherwise a new profile from them is stored; either is returned |
| ProfileRoutes.GetMyProfile | routes/api/profile.js:15-25 | 400 "Profile not found" when the caller has no profile, the profile otherwise |
| ProfileRoutes.GetProfileByUser | routes/api/profile.js:129-136 | 400 "Profile not Found" when the user has no profile, the profile otherwise |
| ProfileRoutes.DeleteAccount | routes/api/profile.js:149-159 | removes the caller's posts, then profile, then user record; a failure at a step answers 500 with the earlier steps done and the later ones not; a failure while deleting posts leaves the posts between those by other users and all of them, none changed; success answers "user deleted" |
| ProfileRoutes.AddExperience | routes/api/profile.js:191-195 | the new entry, under a fresh id, is put in front of the caller's experience and the profile returned; 500 and no change without a profile |
| ProfileRoutes.DeleteExperience | routes/api/profile.js:206-216 | the entry at `indexOf(id)` is spliced out and the profile returned; without a profile nothing changes and nothing is sent |
| ProfileRoutes.AddEducation | routes/api/profile.js:249-253 | the new entry, under a fresh id, is put in front of the caller's education and the profile returned; 500 and no change without a profile |
| ProfileRoutes.DeleteEducation | routes/api/profile.js:264-274 | the entry at `indexOf(id)` is spliced out and the profile returned; without a profile nothing changes and nothing is sent |
| ProfileRoutes.ExperienceRemoval | routes/api/profile.js:210-213 | a present id removes its first entry with the others kept in order; an absent id removes the last entry |
| ProfileRoutes.EducationRemoval | routes/api/profile.js:268-271 | a present id removes its first entry with the others kept in order; an absent id removes the last entry |
| ProfileRoutes.ExperienceDeleteUndoesAdd | routes/api/profile.js:193-213 | deleting, by its id, the experience entry just added restores the list |
| ProfileRoutes.EducationDeleteUndoesAdd | routes/api/profile.js:251-271 | deleting, by its id, the education entry just added restores the list |
| ProfileRoutes.UpdateIdempotent | routes/api/profile.js:92-96 | sending the same body twice updates like sending it once, and experience and education survive an update |
| ProfileRoutes.AccountDeletionRetryCompletes | routes/api/profile.js:149-152 | retrying an account deletion after its post deletion failed part-way leaves exactly the posts a deletion without failure leaves |

## Left out

- Token issuance and login/registration (`routes/api/auth.js`, `routes/api/users.js`): signing, bcrypt hashing and gravatar derivation are foreign library code.
- The internals of `jwt.verify` (signature check, clock and expiry) and the configured secret: the oracle stands for them.
- AuthMiddleware.Decide: a decoded payload without a `user` claim is not modelled, because the backend only signs payloads of the form `{ user: { id } }`.
- The GitHub repository lookup (`routes/api/profile.js:281-302`): outbound HTTP and `JSON.parse`.
- Request validation by express-validator and the 400 `errors` answers it produces: handlers are modelled for requests that passed it.
- Body values that are not strings: a skills value that is an array or number makes `split` throw outside the handler's `try`.
- `populate` of user name and avatar in profile answers, ObjectId cast errors (`error.kind === 'ObjectId'`), and listing every post or profile (with its store-side sort).
- Second responses after the non-returning 404 and 400 branches (`routes/api/post.js:76`, `:99`, `:161`; `routes/api/profile.js:23`): only the first response sent is modelled.
- Store failures other than those of account deletion. A failed `save` in most handlers would answer 500; in the upsert it calls `res.send(500)`. In the experience and education delete handlers the `catch` is empty (`routes/api/profile.js:216`, `:274`), so a failed save there answers nothing.
- The `date` timestamps of posts and profiles; the ids the store generates for new documents are parameters, assumed fresh rather than generated.
- More than one profile per user: the store holds at most one profile per user id.
- Concurrent requests: the read-modify-write of likes, comments, experience and education can race between requests; one request at a time is modelled.
- Console logging.

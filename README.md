# LearnHub backend core, modelled in Dafny

LearnHub is a FastAPI backend over a Supabase (PostgREST) database. It serves
a social feed (posts, comments, likes), a course catalogue (listing with
ratings, teacher and student views, create and update) and discussion spaces
(membership, threads, messages), and it verifies bearer tokens itself.
This project models, in Dafny, the request logic of those routers, the token
verification with its process-wide key cache, and the four environment and
key-set diagnostic scripts, and proves what the handlers promise about them.

Modules follow the source files:

- `Basics` (basics.dfy): `Option`, the handler outcome `Response`, the
  write outcome `Write`, the query outcome `Fetch`, and the Python string
  operations the code relies on: `strip`, `startswith`, `split(c, 1)` and `str(n)`.
- `Tables` (tables.dfy): the `users` row, the `{a["id"]: a for a in rows}`
  lookup (the last row with an id wins), and the first-row lookup of a
  single-row select.
- `Auth` (auth.dfy), from app/auth.py.
  - Pure transition functions `FetchKeys`, `Verify`, `VerifyRs256`,
    `RequireRole` and `VerifyOptional` take the cache and give back the new
    cache and the outcome.
  - The class `Authenticator` holds the cache (`_jwks_cache`) and has its
    methods `GetJwks`, `GetCurrentUser` and `GetCurrentUserOptional`.
  - The jose library and the key endpoint are oracles: parameters saying
    what each call would return for the token at hand.
- `Posts` (posts.dfy), from app/routers/posts.py.
  - The feed `GetPosts` runs over the rows the queries return, with its
    grouping loops as methods.
  - The handlers that write are methods of the class `PostsDb`, whose fields
    are the tables and the WebSocket registry.
- `Courses` (courses.dfy), from app/routers/courses.py. The listing, its
  rating tally and its filters are methods and functions. Create and update
  are methods of `CoursesDb`.
- `Spaces` (spaces.dfy), from app/routers/spaces.py. The read-only views are
  methods. Joining and the three creates are methods of `SpacesDb`.
- `Users` (users.dfy), from app/routers/users.py: `UsersDb` with the profile
  read (which creates a profile on first access) and the profile update.
- `EnvFiles` (env_files.dfy), from check_env.py and compare_envs.py: the
  `read_env` and `read_var` loops, the URL comparison and the report. A
  file is the sequence of its lines; a missing file is `None`.
- `JwksScripts` (jwks_scripts.dfy), from check_jwks.py and
  check_jwks_urllib.py. The HTTP reply is a parameter, and the output is
  the list of lines the script writes.

These conventions hold throughout:

- A query's result rows are inputs, in the order the database returns them.
- Values the database assigns (ids, `created_at`) are parameters.
- The outcome of each insert, update or delete is a `Write` parameter:
  written; empty `data`, with nothing written; or an exception, with its
  message and nothing written.
- `created_at` is an integer.
- Prices, durations and averages are `real`.

Behaviours of the code worth noting:

- `require_role` compares the token's own `role` claim and consults no table.
- A request without credentials does not get a 401. The attribute access at
  auth.py line 42 raises outside the `try`, so the exception escapes as a
  bare 500 (`AbsentCredentialsEscape`).
- A failing key-set fetch is not a separate error. Like every unexpected
  exception, it becomes a 401 whose detail starts "Authentication failed: ".
- A missing matching key is an `AuthError` raised inside the `try`. The
  generic handler at lines 101-103 re-wraps it, so the client sees
  "Authentication failed: 401: ..." (`NoMatchingKeyMessage`).
- The request schemas the routers use are modelled as the handlers use them.
  app/schemas.py, as shipped, has no `PostUpdate`, no space schemas and no
  `parent_id` on `CommentCreate`.
- app/main.py does not mount the spaces router. Its handlers are modelled
  as written.
- In `create_post`, `add_comment`, `create_space`, `create_thread` and
  `create_message`, the 400 for an empty insert result is raised inside a
  blanket `except Exception`. That handler turns it into a 500 whose detail
  is "400: ...". The model returns exactly that.

## Model

| member | source | states |
|---|---|---|
| Basics.StripMeaning | check_env.py:8 | `strip` gives the slice of the line that neither starts nor ends with whitespace; everything removed on either side is whitespace |
| Basics.SplitFirst | check_env.py:10-11 | `None` iff the separator is absent; otherwise the line is key + separator + value and the key holds no separator |
| Tables.UserById | app/routers/spaces.py:112-115 | the dictionary lookup gives None iff no row has the id, else the LAST row with that id |
| Tables.FirstUserWithId | app/routers/users.py:25-42 | None iff no row has the id, else the FIRST row with that id |
| Tables.TeacherById | app/routers/courses.py:51-69 | a teacher exactly when the author lookup finds one, with that row's id, names and avatar |
| Auth.FindKey | app/auth.py:77-79 | the generator finds the first key whose kid equals the header's after passing over keys with other kids; NotFound iff every key has a kid and none matches; a KeyError when a key or the header lacks a kid before any match |
| Auth.FindKeyIsFirstMatch | app/auth.py:77-79 | the key chosen is the first matching one after keys that were passed over |
| Auth.CachedKeysNeedNoFetch | app/auth.py:26-29 | a filled (truthy) cache is returned unchanged, whatever the endpoint says |
| Auth.FalsyCacheFetches | app/auth.py:28-35 | with a None or empty cache the endpoint is asked: fetched keys are stored and returned; a failure leaves the cache unchanged |
| Auth.FetchedKeysServeLaterCalls | app/auth.py:26-35 | a non-empty fetched key list serves every later call; an empty one is stored but fetched again next time |
| Auth.VerifyOnlyFillsCache | app/auth.py:39-110 | verification leaves the cache alone, or stores the endpoint's keys, and the latter only when the cache was falsy |
| Auth.AuthenticatedHasSub | app/auth.py:65-66 | every payload returned carries "sub" |
| Auth.Hs256ShortCircuits | app/auth.py:54-66 | with a secret and an HS256 payload carrying "sub", that payload is returned and the cache is not touched |
| Auth.Hs256FallsThrough | app/auth.py:54-75 | no secret, an HS256 JWTError, or an HS256 payload without "sub" all fall through to the RS256 strategy |
| Auth.FirstMatchingKeyDecides | app/auth.py:73-110 | the RS256 outcome is the first matching key's decoding: JWTError gives "Invalid or expired ..." 401, other errors give "Authentication failed: ..." 401, a payload without "sub" gives "Invalid token payload" |
| Auth.NoMatchingKeyMessage | app/auth.py:81-88 | with no matching key the 401 detail is "Authentication failed: 401: " + the message the secret's presence selects |
| Auth.UnauthorizedText | app/auth.py:18-23 | an `AuthError` renders as "401: " followed by its detail |
| Auth.Rs256FailuresAre401 | app/auth.py:73-110 | the RS256 strategy returns a payload or a 401 whose detail begins with one of the two handler prefixes or is "Invalid token payload" |
| Auth.PresentTokenFailuresAre401 | app/auth.py:52-110 | with credentials present every failure is a 401 with one of those details; nothing escapes |
| Auth.AbsentCredentialsEscape | app/auth.py:42 | without credentials an exception escapes and the cache is untouched |
| Auth.RequireRole | app/auth.py:112-119 | admits iff the token's "role" claim equals the role, returning the token; otherwise a 403 "Forbidden" |
| Auth.MissingRoleClaimForbidden | app/auth.py:116-117 | a token without a "role" claim is always refused with 403 |
| Auth.OptionalUserExact | app/auth.py:121-129 | no or empty credentials give None without touching the cache; otherwise the payload exactly when verification succeeds, never an error |
| Auth.Authenticator.GetJwks | app/auth.py:26-35 | the new cache and result are those of `FetchKeys` on the old cache |
| Auth.Authenticator.GetCurrentUser | app/auth.py:39-110 | the new cache and outcome are those of `Verify` on the old cache |
| Auth.Authenticator.GetCurrentUserOptional | app/auth.py:121-129 | the new cache and result are those of `VerifyOptional` on the old cache |
| Posts.LikesFor | app/routers/posts.py:122 | the like rows kept are exactly the table's rows with that target |
| Posts.CommentsFor | app/routers/posts.py:113 | the comments kept are exactly the fetched comments of that post |
| Posts.LikesForCounts | app/routers/posts.py:122 | each row with the target is kept as many times as the table holds it, every other row never |
| Posts.CommentsForCounts | app/routers/posts.py:113 | each comment of the post is kept as many times as it was fetched, every other comment never |
| Posts.LikeFieldsMeaning | app/routers/posts.py:122-124 | `liked_by_me` holds iff the viewer has a non-empty id and a like row for the post |
| Posts.SortIsSortedPermutation | app/routers/posts.py:120 | the comment sort orders by `created_at` and is a permutation |
| Posts.SortIsStable | app/routers/posts.py:120 | for every timestamp, the comments with that timestamp keep their fetched order (Python's sort is stable) |
| Posts.PostCommentsAreItsRowsByTime | app/routers/posts.py:113-120 | a post's feed comments are exactly its comment rows, ordered by time, ties in fetched order |
| Posts.GroupByTarget | app/routers/posts.py:88-105 | the grouping loops give, for every target, exactly `LikesFor` of the fetched rows |
| Posts.GroupComments | app/routers/posts.py:74-80 | for every post id the map holds that post's comments in fetched order with their authors; one collected id per comment |
| Posts.AttachCommentLikes | app/routers/posts.py:114-118 | each comment gets the count of its like rows and whether the viewer is among them, nothing else changes |
| Posts.EnrichedAreCommentViews | app/routers/posts.py:113-118 | the enriched comments of a post are the views the joins specify |
| Posts.BuildPostView | app/routers/posts.py:108-126 | one post's entry equals the joined entry for it |
| Posts.BuildPostViews | app/routers/posts.py:107-128 | the built list is the joined entry of every post, in order |
| Posts.GetPosts | app/routers/posts.py:40-131 | one entry per fetched post, in order, with its author, like count, liked-by-me and its sorted, enriched comments; comment likes count as none when that query raised |
| Posts.ToggleFlips | app/routers/posts.py:179-188 | after a toggle the pair is liked iff it was not before |
| Posts.ToggleTwiceRestores | app/routers/posts.py:179-188 | liking and then unliking gives the table back |
| Posts.ToggleKeepsOtherPairs | app/routers/posts.py:179-188 | a toggle touches no row of another (target, user) pair |
| Posts.WithoutAbsent | app/routers/posts.py:183 | deleting an absent pair changes nothing |
| Posts.PatchIdempotentKeepsOwner | app/routers/posts.py:280-281 | patching twice is patching once, and no patch changes a post's id or owner |
| Posts.PatchedFirstPost | app/routers/posts.py:281-286 | the first row with the id after the update is the patched original |
| Posts.DeleteRemovesOnlyThePost | app/routers/posts.py:308 | after the delete no post has the id and every other post remains |
| Posts.FirstPostWithId | app/routers/posts.py:273-275 | None iff no post has the id, else the first one |
| Posts.WithoutPost | app/routers/posts.py:308 | exactly the posts with other ids remain |
| Posts.RemoveFirst | app/routers/posts.py:26-28 | removing a present socket drops one occurrence; an absent one changes nothing |
| Posts.PostsDb.CreatePost | app/routers/posts.py:133-167 | a stored post is appended and returned with its author, no comments and no likes; an empty insert is a 500 "400: Failed to create post"; a failure a 500 with its message |
| Posts.PostsDb.ToggleLike | app/routers/posts.py:169-196 | once the delete or insert is written the likes become `Toggled`; `liked` iff the pair was absent and the count is the post's rows afterwards; empty `data` leaves the likes as they were; a failed write is a 500 with its message and changes nothing |
| Posts.PostsDb.AddComment | app/routers/posts.py:198-230 | a stored comment is appended and returned with its author and no likes; empty insert and failure as for posts |
| Posts.PostsDb.ToggleCommentLike | app/routers/posts.py:232-259 | the same over the comment likes: `Toggled` once written, unchanged on empty `data`, a 500 that changes nothing on a failed write |
| Posts.PostsDb.UpdatePost | app/routers/posts.py:262-289 | 404 for a missing post, 403 for another owner's, both without writing; then a written update patches the rows and returns the patched post, empty `data` is the 400 "Failed to update post" and a failed update a 500, both leaving the rows unchanged |
| Posts.PostsDb.DeletePost | app/routers/posts.py:291-312 | 404 and 403 as for update, without writing; then a written delete removes the post, empty `data` still reports success, and a failed delete is a 500 that changes nothing |
| Posts.PostsDb.Connect | app/routers/posts.py:22-24 | the socket is appended to the registry |
| Posts.PostsDb.Disconnect | app/routers/posts.py:26-28 | the first occurrence of the socket is removed, if any |
| Courses.ListQuery | app/routers/courses.py:24-35 | always published-only and the price range; a `%search%` title pattern iff search is non-empty; category and level filters iff set, non-empty and not "All" |
| Courses.DefaultQueryFiltersNothingElse | app/routers/courses.py:16-35 | with the default parameters only the published and price filters apply |
| Courses.RatingCount | app/routers/courses.py:56-65 | zero iff no review is of the course |
| Courses.Average | app/routers/courses.py:71 | for a positive count the average times the count is the total; 0 without reviews |
| Courses.DroppedInIntegers | app/routers/courses.py:71-76 | a course is dropped iff its total is below `min_rating` times its count, or it has no reviews and `min_rating` is positive |
| Courses.TallyRatings | app/routers/courses.py:56-65 | for every course the tally is its rating total and review count |
| Courses.ListCourses | app/routers/courses.py:39-83 | the result is `Listed`: the fetched courses not dropped, in order, with teacher, average and count |
| Courses.ListedAppend | app/routers/courses.py:67-83 | the filter keeps the relative order of the courses |
| Courses.ListedMembers | app/routers/courses.py:67-83 | a view is listed iff it is the view of a fetched course that is not dropped |
| Courses.SingleCourseRatingAgrees | app/routers/courses.py:190-193 | the single-course ratings sum and count agree with the listing's tally |
| Courses.SumAppend | app/routers/courses.py:192 | summing one more rating adds it |
| Courses.GetCourse | app/routers/courses.py:174-195 | 404 iff the course is missing; otherwise the row, the teacher exactly when a user row has its id (that user's public columns), the number of ratings, and a rating whose product with the count is their sum (0 without any) |
| Courses.EnrolledMembers | app/routers/courses.py:124-172 | a student course is listed iff it comes from an enrollment with a course and carries that enrollment's columns |
| Courses.ListStudentCourses | app/routers/courses.py:124-172 | the result is `Enrolled`: each enrollment with a course, in order, with its teacher and enrollment data |
| Courses.ListTeacherCourses | app/routers/courses.py:85-122 | a failed course fetch is a 500 with its message; otherwise every fetched course, in order, with the caller's teacher row, or just the caller's id when that fetch raised |
| Courses.PatchedCourse | app/routers/courses.py:238-243 | a patch never changes id, teacher or creation time; an empty patch changes nothing |
| Courses.PatchedCourseFields | app/routers/courses.py:238-243 | every field the patch names is set, the rest kept, and patching twice is patching once |
| Courses.FirstCourseWithId | app/routers/courses.py:231-233 | None iff no course has the id, else the first one |
| Courses.PatchedFirstCourse | app/routers/courses.py:243-245 | the first row with the id after the update is the patched original |
| Courses.CoursesDb.CreateCourse | app/routers/courses.py:197-219 | a stored course belongs to the caller and is appended and returned; an empty insert is a 400, a failure escapes |
| Courses.CoursesDb.UpdateCourse | app/routers/courses.py:221-251 | 404, then 403, then 400 for an empty patch, each without writing; then a written update patches the rows and returns the patched course; empty `data` escapes as the `IndexError` of `data[0]`, a failed update as its exception, both changing nothing |
| Spaces.MemberCount | app/routers/spaces.py:32-33 | the count is at most the number of membership rows |
| Spaces.MemberCountCounts | app/routers/spaces.py:32-33 | the count is the number of membership rows of the space |
| Spaces.MessageCountCounts | app/routers/spaces.py:116-117 | the count is the number of message rows of the thread |
| Spaces.JoinedSpaceIds | app/routers/spaces.py:26-27 | a space id is collected iff the user has a membership row for it |
| Spaces.GetSpaces | app/routers/spaces.py:14-39 | every space in order, with its membership-row count and whether the caller has a row |
| Spaces.GetSpaceThreads | app/routers/spaces.py:103-119 | every thread in order, with its author and its message count |
| Spaces.GetThreadMessages | app/routers/spaces.py:157-171 | every message in order, with its author or None |
| Spaces.JoinIsIdempotent | app/routers/spaces.py:83-91 | after a join the user is a member, and a second join changes nothing |
| Spaces.JoinCounts | app/routers/spaces.py:83-91 | a join by a non-member adds one to that space's count and to no other's |
| Spaces.CreatedSpaceCountsItsCreator | app/routers/spaces.py:60-67 | the reported `member_count` of 1 and membership are true when the new space had no rows |
| Spaces.MemberCountAppend | app/routers/spaces.py:32-33 | one more row changes only its space's count, by one |
| Spaces.SpacesDb.JoinSpace | app/routers/spaces.py:74-95 | an existing member gets "Already a member" and no row; otherwise one "member" row is stored; a failing insert is a 500 |
| Spaces.SpacesDb.CreateSpace | app/routers/spaces.py:41-72 | the space is stored as the caller's, then an "admin" membership; an empty insert is a 500 "400: ..."; failures are 500s |
| Spaces.SpacesDb.CreateThread | app/routers/spaces.py:123-149 | a stored thread is appended and returned with its author and no messages; empty insert and failure are 500s |
| Spaces.SpacesDb.CreateMessage | app/routers/spaces.py:175-202 | a stored message is appended and returned with its author; empty insert and failure are 500s |
| Users.UserIdOf | app/routers/users.py:19 | the "sub" claim, or the text "None" when absent; empty iff "sub" is the empty text |
| Users.NewProfile | app/routers/users.py:28-35 | the new profile has the token's email, role "student" and the name "New User", nothing else |
| Users.CreatedProfileIsFound | app/routers/users.py:25-42 | once created, the profile is what the next read finds |
| Users.PatchedUser | app/routers/users.py:60-65 | an empty patch changes nothing |
| Users.PatchKeepsIdentityAndRole | app/routers/users.py:60-65 | an update never changes id, email or role, sets every field named, and is idempotent |
| Users.PatchedFirstUser | app/routers/users.py:65-70 | the first row with the id after the update is the patched original |
| Users.PatchWithoutRowChangesNothing | app/routers/users.py:65-68 | an update of an absent id changes no row |
| Users.UsersDb.ReadUsersMe | app/routers/users.py:14-50 | 400 for an empty id; the existing first row without inserting; or one new profile stored and returned; database errors become 500 "Database error: ..." |
| Users.UsersDb.UpdateUserMe | app/routers/users.py:52-70 | 400 for an empty patch without writing; a failed update escapes as its exception and changes nothing; 404 when the update gives back no row or no row has the id; otherwise the rows patched and the patched row returned |
| EnvFiles.ParseEnvLine | check_env.py:8-12 | a line contributes nothing iff, stripped, it is blank, a comment or has no "="; otherwise key and value around its first "=" |
| EnvFiles.EnvOfAppend | check_env.py:7-12 | reading more lines overrides earlier keys |
| EnvFiles.EnvKeys | check_env.py:7-12 | a key is defined iff some line parses with that key |
| EnvFiles.EnvLastWins | check_env.py:7-12 | a key's value comes from the last line defining it |
| EnvFiles.EnvOfSnoc | check_env.py:7-12 | one more line adds its entry, if any |
| EnvFiles.ReadEnv | check_env.py:3-15 | None for a missing file; otherwise the dictionary of the file's lines (the same function is copied at check_jwks.py:5-17 and check_jwks_urllib.py:5-17) |
| EnvFiles.UrlVerdict | check_env.py:23-29 | MATCH iff the stripped URLs, "" when missing, are equal; otherwise MISMATCH |
| EnvFiles.MissingUrlsMatch | check_env.py:24-27 | two defined files without either URL report MATCH |
| EnvFiles.PaddedUrlsMatch | check_env.py:24-27 | URLs that differ only in surrounding whitespace report MATCH |
| EnvFiles.CheckEnv | check_env.py:17-29 | two URL lines, "Not found" for an empty or missing file; a verdict line only when both dictionaries are non-empty |
| EnvFiles.FirstPrefixed | compare_envs.py:5-7 | None iff no line starts with the name, else the first such line |
| EnvFiles.VarLookup | compare_envs.py:3-11 | "File Not Found" for a missing file; "Var Not Found" when no line has the prefix; else the first such line's value |
| EnvFiles.VarValueMeaning | compare_envs.py:7 | a selected line without "=" raises IndexError; otherwise its stripped text after the first "=" |
| EnvFiles.ReadVar | compare_envs.py:3-11 | the loop's result is `VarLookup` |
| EnvFiles.SplitAfterKey | compare_envs.py:7 | splitting key "=" value at its first "=" gives key and value |
| EnvFiles.LongerNameIsSelected | compare_envs.py:6-7 | a longer variable `SUPABASE_URL_X=` coming first is read for `SUPABASE_URL` |
| EnvFiles.IndentedLineIsSkipped | compare_envs.py:6 | an indented line is not selected |
| EnvFiles.CompareEnvs | compare_envs.py:13-20 | an escaping error of the backend read wins, then the frontend's; otherwise the report of both values |
| EnvFiles.SentinelsMatch | compare_envs.py:16-20 | equal texts, sentinels included, report "Match: True" |
| JwksScripts.KidsOf | check_jwks.py:31 | one entry per key: its "kid" member or None |
| JwksScripts.FirstNone | check_jwks.py:33 | None iff every kid is present, else the first absent one |
| JwksScripts.JoinKids | check_jwks.py:33 | the ", "-joined kids iff all are present; otherwise the TypeError naming the first absent one |
| JwksScripts.ScriptUrl | check_jwks.py:19-24 | a URL iff the dictionary is non-empty and has a non-empty SUPABASE_URL |
| JwksScripts.FetchReport | check_jwks.py:27-43 | the fetch part's lines are `FetchLines` of the reply, for either client (check_jwks_urllib.py:27-44 differs only in the client) |
| JwksScripts.CheckJwks | check_jwks.py:19-48 | only the notice without a URL; otherwise the fetch line and the fetch report (likewise check_jwks_urllib.py:19-49) |
| JwksScripts.SuccessIff | check_jwks.py:29-39 | SUCCESS iff the reply is 200, every key has a kid and the target kid is among them |
| JwksScripts.SuccessNeedsAllKids | check_jwks.py:31-33 | a key without a kid makes the join raise before the target test |
| JwksScripts.TargetFoundMeaning | check_jwks.py:36 | the target is found iff some key's kid is the target |
| JwksScripts.EmptyKeySet | check_jwks.py:30-39 | an empty key set lists no ids and never finds the target |

## Left out

- Cryptography: the jose decoders are oracles. Signature checks, expiry
  and the audience are what those oracles summarise.
- Network: the JWKS request (httpx, requests, urllib) is a reply given as a
  parameter. The link preview handler (`get_link_preview`,
  app/routers/posts.py:314-345) fetches a page and parses HTML, so it is not
  modelled.
- The WebSocket endpoint (app/routers/posts.py:347-357) and
  `ConnectionManager.broadcast` (lines 30-38) are concurrent I/O and are not
  modelled. The accept of `connect` is dropped; a socket is a number.
- Supabase query semantics are not modelled: `ilike`, `eq`, `gte`, `lte`,
  `order` and `in_`. Handlers receive the rows a query returns. For the
  listing, `ListQuery` records which filters are requested.
- `.single()`: a missing row counts as no data, which is the reading the
  handlers' own `if not res.data` checks assume. The real client raises instead.
- Exceptions of the reads inside the blanket `except Exception` handlers are
  not modelled; those handlers answer with a 500. Examples are the count
  queries of the toggles, the queries of `get_posts` and `get_spaces`, and
  the author lookup after an insert.
- Only the reads whose failures the handlers catch themselves are parameters:
  - the comment likes of `get_posts`;
  - the course and teacher fetches of `list_teacher_courses`;
  - the select of `read_users_me`.
- The failure of the second insert of `create_space` is modelled.
  `create_post`'s broadcast is not.
- A JWT claim that is not a text is left out: claims are `map<string, string>`.
- Floating point: prices, durations and averages are `real`. An average is
  exact, with no rounding.
- `created_at` is an integer timestamp compared as a number.
- Request validation by pydantic and the response models' field selection
  are left out. Records hold the columns the handlers read and set.
- The debug `print` calls are left out. So is the scripts' writing of their
  report files: the models return the text or lines written.
- Wiring (app/dependencies.py, app/main.py), the environment lookup of the
  JWT secret (a parameter) and the hard-coded file paths of the scripts are
  not part of this model.
- Auth.Authenticator.GetJwks: the key cache is modelled for calls one at a
  time. `_get_jwks` awaits the fetch between its test of the cache
  (app/auth.py:28) and its store (line 34), so two overlapping first requests
  each fetch and the later store wins; that interleaving is not captured.
- EnvFiles.ReadVar: the line is what iterating over the file yields. It
  includes its line break, which `strip` then removes from the value.
- Courses.ListCourses: a course with an unknown teacher gets None. The
  teachers are fetched with `in_`, and any row set is accepted.
- Posts.GetPosts: the comment-author and post-author fetches are separate
  inputs, and their lookups keep the last row with an id.

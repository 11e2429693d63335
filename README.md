# Food-Recipe engagement state machines, modelled in Dafny

This project models the parts of the Food-Recipe backend (a Django REST
recipe-sharing service) that hold per-record state logic of their own. It
covers five pieces.

- **Comment reactions.** `LikeCommentAPIView.post` keeps one CommentLike row
  per (comment, user) with two booleans, `liked` and `disliked`. A request
  carrying `liked = 1` or `liked = 0` moves the row between the states
  neutral, liked and disliked. The row is fetched or created before the value
  is examined, so a rejected value still leaves a row behind.
- **Saved recipes.** `SavedRecipeAPIView.create` flips whether the
  (recipe, user) mark exists. It answers `Saved`/201 or `Unsaved`/200.
- **Ratings and list views.** `RateRecipeAPIView.post` inserts one rating row
  per call and never looks for an existing one. The per-user recipe list and
  the per-recipe comment list filter a table by one key.
- **Notifications.** Retrieving a notification marks it read. Any
  authenticated caller may retrieve any notification, because the view checks
  no owner. The list view returns the requester's notifications.
- **Row-insert hooks.** A new Follow row writes one "New Follower"
  notification to the followed user. A new User row stores a verification
  code in the cache under `str(pk)` for 300 seconds and queues one
  verification mail.

Files and modules:

- `common.dfy` (`Common`): identities, the authentication verdict (`Caller`),
  replies (`Outcome`, `Error`) and the queryset filter (`Filter`).
- `reactions.dfy` (`Reactions`): the reaction transition as a pure function,
  with lemmas about sequences of requests.
- `recipe_views.dfy` (`RecipeViews`): the class `RecipeStore`. Its fields hold
  the recipe, comment, rating, CommentLike and RecipeSaved tables, and its
  methods are the handlers. It also holds the toggle and the list filters as
  functions.
- `notification_views.dfy` (`NotificationViews`): the class
  `NotificationTable` with `Create` and `Retrieve`; `MarkRead`, which
  specifies `Retrieve`; and `NotificationsFor`, the list view's filter.
- `user_signals.dfy` (`UserSignals`): the two hooks, Python's `str(n)` for
  the cache key, and the verification link with a query-string reader.

Each handler that changes state is a method. Its `ensures` gives the whole new
state, either in terms of a pure function (`Step`, `Toggle` or `MarkRead`) or
as an explicit append or map update. The lemmas
about those functions carry the properties across calls: alternation of likes,
repeated dislikes ending in liked, toggle parity, idempotent retrieval.

On these points the model follows the code, which a reader might not expect:

- Retrieval of a notification has no ownership check. The code uses only
  `IsAuthenticated`.
- The follow notification's message names `instance.following`, the followed
  user, and not the follower.
- The cache timeout is 300 seconds.
- A repeated dislike moves the record to liked, not neutral.

## Model

| member | source | states |
|---|---|---|
| Reactions.Step | apps/recipe/api/version0/views.py:169-191 | Transition table: a like on exactly (liked, not disliked) goes to neutral, any other like goes to liked; a dislike on exactly (disliked, not liked) goes to liked, any other dislike goes to disliked; any other value is rejected; every accepted request lands in one of the three states |
| Reactions.RunKeepsConsistent | apps/recipe/api/version0/views.py:169-191 | From one of the three states, any series of requests (rejected ones included) stays in the three states |
| Reactions.VoteMakesConsistent | apps/recipe/api/version0/views.py:169-185 | Whatever the starting pair, even both true, a series containing one like or dislike ends with liked and disliked not both true |
| Reactions.RepeatedLikes | apps/recipe/api/version0/views.py:169-175 | From neutral, n likes give liked when n is odd and neutral when n is even; from liked the parity is reversed |
| Reactions.DislikesFromDisliked | apps/recipe/api/version0/views.py:179-187 | Repeated dislikes from disliked alternate liked/disliked, and from liked alternate disliked/liked; neutral is never reached |
| Reactions.RepeatedDislikes | apps/recipe/api/version0/views.py:179-187 | From neutral, n >= 1 dislikes give disliked when n is odd and liked when n is even |
| Reactions.DislikeTwiceIsLiked | apps/recipe/api/version0/views.py:179-185 | Two dislikes from neutral end liked, while two likes from neutral end neutral (the asymmetry) |
| RecipeViews.RecipeStore.LikeComment | apps/recipe/api/version0/views.py:161-191 | Anonymous caller: rejected, nothing changes; missing comment: 404, nothing changes; otherwise the (comment, user) row is created as neutral if absent, then set to Step's result with 200, or kept as fetched with 400 for another value; only that one key of the reaction table changes and every row stays in the three states |
| RecipeViews.Toggle | apps/recipe/api/version0/views.py:216-222 | The toggled pair is present afterwards exactly when it was absent before; every other (recipe, user) pair keeps its membership |
| RecipeViews.ToggleTwice | apps/recipe/api/version0/views.py:216-222 | Two toggles of the same pair restore the original set |
| RecipeViews.ToggleParity | apps/recipe/api/version0/views.py:216-222 | After n toggles the pair's membership has flipped exactly when n is odd, and no other pair has changed |
| RecipeViews.RecipeStore.SaveRecipe | apps/recipe/api/version0/views.py:207-222 | Anonymous caller or missing recipe: rejected, nothing changes; otherwise the saved set becomes Toggle of the old one, with Saved/201 when the mark was absent and Unsaved/200 when it was present; no other table changes |
| RecipeViews.RecipeStore.RateRecipe | apps/recipe/api/version0/views.py:148-158 | Succeeds with 200 exactly for an authenticated caller, an existing recipe and a supplied rate, and then appends exactly the row (recipe, user, rate) whatever rows exist; on every failure the rating table is unchanged; a missing rate is a server error |
| RecipeViews.RecipesForUser | apps/recipe/api/version0/views.py:85-88 | Returns exactly the recipes whose owner is the requester |
| RecipeViews.CommentsOfRecipe | apps/recipe/api/version0/views.py:125-129 | Returns exactly the comments whose recipe is pk |
| Common.Filter | apps/recipe/api/version0/views.py:87 | Every kept row comes from the table and satisfies the condition, and there are no more kept rows than the table holds; that every satisfying row is kept, with its multiplicity, is stated by FilterCount |
| Common.FilterCount | apps/recipe/api/version0/views.py:127 | A row satisfying the condition is kept as many times as it occurs in the table; any other row occurs zero times |
| Common.FilterAppend | apps/notification/api/version0/views.py:18 | Filtering keeps table order: filtering a concatenation concatenates the filtered parts |
| NotificationViews.IndexOf | apps/notification/api/version0/views.py:37 | Finds a position holding the requested key exactly when some row has that key |
| NotificationViews.MarkRead | apps/notification/api/version0/views.py:38-40 | After reading key id: each row is read exactly when it was read before or has key id, so nothing goes back to unread, and no field other than `read` changes in any row |
| NotificationViews.MarkReadWhenRead | apps/notification/api/version0/views.py:38 | Reading a notification that is already read leaves the table unchanged |
| NotificationViews.MarkReadIdempotent | apps/notification/api/version0/views.py:36-41 | Two retrievals leave the same table as one |
| NotificationViews.MarkReadAt | apps/notification/api/version0/views.py:38-40 | With unique keys, marking by key equals updating the one row at that key's position |
| NotificationViews.NotificationTable.Retrieve | apps/notification/api/version0/views.py:31-41 | Any authenticated caller, owner or not, gets the notification with 200 and read set, and the table becomes MarkRead of the old one; an already read notification leaves the table unchanged; unknown key: 404; anonymous: rejected; both leave the table unchanged |
| NotificationViews.NotificationsFor | apps/notification/api/version0/views.py:16-19 | Returns exactly the notifications whose user is the requester |
| NotificationViews.NotificationsForAppend | apps/notification/api/version0/views.py:16-19 | A newly inserted notification is appended to its addressee's list and to no other user's list |
| NotificationViews.NotificationTable.Create | apps/user/signals.py:17-23 | Appends exactly one unread row with the given fields and a fresh key; earlier rows are unchanged |
| UserSignals.OnFollowSaved | apps/user/signals.py:14-23 | On an update the table is unchanged; on a creation exactly one row is appended, addressed to the followed user, with the follow's key, the Follow content type, title "New Follower" and message "You have been followed by " plus the followed user's own username, and the next free key advances by one; no earlier notification is consulted |
| UserSignals.Decimal | apps/user/signals.py:30 | str(pk) is a non-empty run of decimal digits without a leading zero unless pk is 0 |
| UserSignals.DecimalRoundTrip | apps/user/signals.py:30 | Reading str(pk) back as a decimal number gives pk |
| UserSignals.CacheKeysDistinct | apps/user/signals.py:30 | Distinct users get distinct cache keys |
| UserSignals.VerificationUrl | apps/user/signals.py:31 | The link starts with the verify-code endpoint and a `?`, and its query string (the text after the first `?`) is `code=<code>&user_id=<str(pk)>` |
| UserSignals.VerificationUrlParams | apps/user/signals.py:31 | For a code without `&`, the link's query parameters are exactly code = the generated code and user_id = str(pk), and user_id reads back as pk |
| UserSignals.VerificationMessage | apps/user/signals.py:34 | The mail body starts with "Verify code: " and the code, and ends with the verification link |
| UserSignals.Dispatcher.OnUserSaved | apps/user/signals.py:26-38 | On an update the cache and the mail queue are unchanged; on a creation the cache maps str(pk) to the code with timeout 300, no other key changes, and exactly one job is queued with subject "Verify your email!", the code-and-link body, the configured sender and recipients exactly [email] |

## Left out

- Framework machinery: routing, serializers, Swagger decorators, parsers,
  pagination, and the generic create/update/destroy/list views. This covers
  recipe create, update and delete, comment create and delete, and the
  category and recipe lists. Their behaviour lives in code that is not part
  of this model.
- RecipeStore.LikeComment: the request value is an integer. Python's True
  and False compare equal to 1 and 0. Any other value, including strings and
  None, takes the 400 branch. How `CommentLikeSerializer` extracts the value
  is not modelled.
- RecipeStore.LikeComment: a new CommentLike row is assumed to start neutral
  (not liked, not disliked). The Django CommentLike class, with its field
  defaults, is not modelled.
- RecipeStore.LikeComment: the reply carries only the reaction state or the
  error kind. It does not carry the serializer's output or the 400 body text,
  which names the user.
- A CommentLike row is a value in a map keyed by (comment, user). The map
  makes "at most one row per pair" structural. The identity of the row object
  and aliasing between copies are not captured.
- Authentication: `IsAuthenticated` rejects an anonymous caller before the
  handler runs. The model does not distinguish 401 from 403.
- RecipesForUser: the `IsOwner` permission on the per-user recipe list is not
  modelled, because its code is not part of this model. The function is the
  queryset filter only.
- Queryset ordering and `OrderingFilter` are not modelled. Filters keep table
  order.
- The check at apps/recipe/api/version0/views.py:155 is dead code, since
  `get_object_or_404` already raises. A missing recipe is a 404.
- RecipeStore.RateRecipe: the rate value is not validated. Any validation
  belongs to the RateRecipe model, which is not part of this model.
- Notification timestamps and any fields not written by this core are left
  out. A new notification is assumed unread.
- `ContentType.objects.get_for_model` is represented by the constant value
  ("user", "follow").
- `generate_code` is not modelled. The code is a parameter of
  `OnUserSaved`, and `EMAIL_HOST_USER` is too.
- Mail delivery and Celery semantics are not modelled. The queue is an
  append-only sequence of jobs.
- Cache expiry is not modelled. Only the timeout value 300 is recorded.
- OnUserSaved: a failed cache write raises out of `send_email` before the
  mail is queued, and the exception reaches the code that saved the User. A
  failed `delay` call raises the same way after the cache write. The model
  has no failure path: its cache write and its queue append always succeed.
- The verify-code endpoint that consumes the cached code is not part of this
  model. `VerificationUrlParams` states what such a reader receives.
- Concurrency is left out. Calls are sequential, and races between two
  get-or-create calls are not modelled.
- food_recipe/celery.py is worker configuration only and holds no logic.

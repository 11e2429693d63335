/** The recipe endpoints of apps/recipe/api/version0/views.py that hold logic
    of their own: the comment like/dislike handler, the save/unsave toggle,
    the rating insert, and the two list views that filter a table by one key.
    The tables they touch are the fields of one store object; a handler's
    `save()`, `create()` or `delete()` is a reassignment of the field that
    holds the table. */
module RecipeViews {

  import opened Common
  import opened Reactions

  type RecipeId = nat
  type CommentId = nat

  datatype Recipe = Recipe(id: RecipeId, user: UserId)
  datatype Comment = Comment(id: CommentId, recipe: RecipeId, user: UserId)
  datatype Rating = Rating(recipe: RecipeId, user: UserId, rate: int)

  /** The unique key of a CommentLike row: (comment, user). */
  type ReactionKey = (CommentId, UserId)
  /** The key of a RecipeSaved row: (recipe, user). */
  type SaveKey = (RecipeId, UserId)

  /** The reply of the save toggle. */
  datatype SaveReply = Saved | Unsaved

  /** The state every new CommentLike row starts in. */
  const InitialReaction := Neutral

  /** Save membership after one toggle of `k`: present becomes absent and
      absent becomes present; every other pair keeps its membership. */
  function Toggle(saved: set<SaveKey>, k: SaveKey): (r: set<SaveKey>)
    ensures k in r <==> k !in saved
    ensures forall j :: j != k ==> (j in r <==> j in saved)
  {
    if k in saved then saved - {k} else saved + {k}
  }

  /** Two toggles in succession restore the original membership. */
  lemma ToggleTwice(saved: set<SaveKey>, k: SaveKey)
    ensures Toggle(Toggle(saved, k), k) == saved
  {
  }

  /** Membership after `n` toggles of the same pair. */
  function ToggleTimes(saved: set<SaveKey>, k: SaveKey, n: nat): set<SaveKey>
  {
    if n == 0 then saved else Toggle(ToggleTimes(saved, k, n - 1), k)
  }

  /** After `n` toggles the pair's membership has flipped exactly when `n` is
      odd, and no other pair has changed. */
  lemma {:induction false} ToggleParity(saved: set<SaveKey>, k: SaveKey, n: nat)
    ensures k in ToggleTimes(saved, k, n) <==> (k in saved) != (n % 2 == 1)
    ensures forall j :: j != k ==> (j in ToggleTimes(saved, k, n) <==> j in saved)
  {
    if n > 0 {
      ToggleParity(saved, k, n - 1);
    }
  }

  /** The rows a list view returns for `RecipeListForUserAPIView.get_queryset`:
      the recipes whose owner is the requester. */
  function RecipesForUser(recipes: seq<Recipe>, u: UserId): (r: seq<Recipe>)
    ensures forall i :: 0 <= i < |r| ==> r[i].user == u
    ensures forall x :: x in r <==> x in recipes && x.user == u
  {
    var keep := (x: Recipe) => x.user == u;
    assert forall x :: x in Filter(recipes, keep) <==> x in recipes && x.user == u by {
      forall x { FilterMembers(recipes, keep, x); }
    }
    Filter(recipes, keep)
  }

  /** The rows `CommentListAPIView.get` returns: the comments on recipe `pk`. */
  function CommentsOfRecipe(comments: seq<Comment>, pk: RecipeId): (r: seq<Comment>)
    ensures forall i :: 0 <= i < |r| ==> r[i].recipe == pk
    ensures forall x :: x in r <==> x in comments && x.recipe == pk
  {
    var keep := (x: Comment) => x.recipe == pk;
    assert forall x :: x in Filter(comments, keep) <==> x in comments && x.recipe == pk by {
      forall x { FilterMembers(comments, keep, x); }
    }
    Filter(comments, keep)
  }

  class RecipeStore {
    var recipes: seq<Recipe>
    var comments: seq<Comment>
    var ratings: seq<Rating>
    var reactions: map<ReactionKey, ReactionState>
    var saved: set<SaveKey>

    /** Every CommentLike row written by this core is in one of the three
        reaction states. */
    ghost predicate Valid()
      reads this
    {
      forall k :: k in reactions ==> Consistent(reactions[k])
    }

    constructor (recipes: seq<Recipe>, comments: seq<Comment>)
      ensures Valid()
      ensures this.recipes == recipes && this.comments == comments
      ensures ratings == [] && reactions == map[] && saved == {}
    {
      this.recipes := recipes;
      this.comments := comments;
      ratings := [];
      reactions := map[];
      saved := {};
    }

    /** `get_object_or_404(Recipe, pk=pk)` finds a row. */
    predicate HasRecipe(pk: RecipeId)
      reads this
    {
      exists i :: 0 <= i < |recipes| && recipes[i].id == pk
    }

    /** `get_object_or_404(Comment, pk=pk)` finds a row. */
    predicate HasComment(pk: CommentId)
      reads this
    {
      exists i :: 0 <= i < |comments| && comments[i].id == pk
    }

    /** LikeCommentAPIView.post: look up the comment, get-or-create the
        caller's CommentLike row, then apply the request's `liked` value. The
        row is created before the value is examined, so a rejected value still
        leaves a row behind. */
    method LikeComment(caller: Caller, pk: CommentId, data: int) returns (out: Outcome<ReactionState>)
      requires Valid()
      modifies this
      ensures Valid()
      ensures recipes == old(recipes) && comments == old(comments)
      ensures ratings == old(ratings) && saved == old(saved)
      ensures caller.Anonymous? ==> out == Fail(NotAuthenticated) && reactions == old(reactions)
      ensures caller.Authenticated? && !old(HasComment(pk)) ==>
                out == Fail(NotFound) && reactions == old(reactions)
      ensures caller.Authenticated? && old(HasComment(pk)) ==>
                var key := (pk, caller.user);
                var current := if key in old(reactions) then old(reactions)[key] else InitialReaction;
                match Step(current, data)
                case Some(next) => out == Ok(HTTP_200_OK, next) && reactions == old(reactions)[key := next]
                case None => out == Fail(BadRequest) && reactions == old(reactions)[key := current]
    {
      if caller.Anonymous? {
        return Fail(NotAuthenticated);
      }
      if !HasComment(pk) {
        return Fail(NotFound);
      }
      var key := (pk, caller.user);
      var record: ReactionState;
      if key in reactions {
        record := reactions[key];
      } else {
        record := InitialReaction;
        reactions := reactions[key := record];
      }
      if data == 1 {
        if record.liked && !record.disliked {
          record := record.(liked := false);
        } else {
          record := record.(liked := true, disliked := false);
        }
        reactions := reactions[key := record];
        return Ok(HTTP_200_OK, record);
      }
      if data == 0 {
        if record.disliked && !record.liked {
          record := record.(disliked := false, liked := true);
        } else {
          record := record.(disliked := true, liked := false);
        }
        reactions := reactions[key := record];
        return Ok(HTTP_200_OK, record);
      }
      return Fail(BadRequest);
    }

    /** SavedRecipeAPIView.create: get-or-create the (recipe, caller) mark; a
        mark that already existed is deleted instead. */
    method SaveRecipe(caller: Caller, pk: RecipeId) returns (out: Outcome<SaveReply>)
      requires Valid()
      modifies this
      ensures Valid()
      ensures recipes == old(recipes) && comments == old(comments)
      ensures ratings == old(ratings) && reactions == old(reactions)
      ensures caller.Anonymous? ==> out == Fail(NotAuthenticated) && saved == old(saved)
      ensures caller.Authenticated? && !old(HasRecipe(pk)) ==> out == Fail(NotFound) && saved == old(saved)
      ensures caller.Authenticated? && old(HasRecipe(pk)) ==>
                var key := (pk, caller.user);
                saved == Toggle(old(saved), key) &&
                out == if key in old(saved) then Ok(HTTP_200_OK, Unsaved) else Ok(HTTP_201_CREATED, Saved)
    {
      if caller.Anonymous? {
        return Fail(NotAuthenticated);
      }
      if !HasRecipe(pk) {
        return Fail(NotFound);
      }
      var key := (pk, caller.user);
      var created := key !in saved;
      if created {
        saved := saved + {key};
      }
      if !created {
        saved := saved - {key};
        return Ok(HTTP_200_OK, Unsaved);
      }
      return Ok(HTTP_201_CREATED, Saved);
    }

    /** RateRecipeAPIView.post: look up the recipe, then insert one rating row
        with the request's `rate`. No existing row is consulted, so repeated
        calls insert repeated rows. A request without `rate` raises before the
        insert. */
    method RateRecipe(caller: Caller, pk: RecipeId, rate: Option<int>) returns (out: Outcome<()>)
      requires Valid()
      modifies this
      ensures Valid()
      ensures recipes == old(recipes) && comments == old(comments)
      ensures reactions == old(reactions) && saved == old(saved)
      ensures out.Ok? <==> caller.Authenticated? && old(HasRecipe(pk)) && rate.Some?
      ensures out.Ok? ==> out.status == HTTP_200_OK
      ensures out.Ok? ==> ratings == old(ratings) + [Rating(pk, caller.user, rate.value)]
      ensures out.Fail? ==> ratings == old(ratings)
      ensures caller.Anonymous? ==> out == Fail(NotAuthenticated)
      ensures caller.Authenticated? && !old(HasRecipe(pk)) ==> out == Fail(NotFound)
      ensures caller.Authenticated? && old(HasRecipe(pk)) && rate.None? ==> out == Fail(ServerError)
    {
      if caller.Anonymous? {
        return Fail(NotAuthenticated);
      }
      if !HasRecipe(pk) {
        return Fail(NotFound);
      }
      if rate.None? {
        return Fail(ServerError);
      }
      ratings := ratings + [Rating(pk, caller.user, rate.value)];
      return Ok(HTTP_200_OK, ());
    }
  }
}

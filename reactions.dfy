/** The like/dislike decision of the comment-reaction endpoint
    (apps/recipe/api/version0/views.py, LikeCommentAPIView.post): a pure
    transition on the pair (liked, disliked) of one CommentLike record, driven
    by the request's `liked` value. */
module Reactions {

  import opened Common

  datatype ReactionState = ReactionState(liked: bool, disliked: bool)

  const Neutral := ReactionState(false, false)
  const Liked := ReactionState(true, false)
  const Disliked := ReactionState(false, true)

  /** The three states the endpoint can leave a record in. */
  predicate Consistent(s: ReactionState) {
    s == Neutral || s == Liked || s == Disliked
  }

  /** The input values the handler acts on. Python compares with `==`, so the
      booleans True and False select the same branches as 1 and 0. */
  predicate IsVote(data: int) {
    data == 0 || data == 1
  }

  /** One reaction request on a record in state `s`. `None` is the handler's
      400 reply, which leaves the record as it was. The body follows the
      handler's field assignments; the contract is the transition table. */
  function Step(s: ReactionState, data: int): (r: Option<ReactionState>)
    ensures r.Some? <==> IsVote(data)
    ensures data == 1 && s == Liked ==> r == Some(Neutral)
    ensures data == 1 && s != Liked ==> r == Some(Liked)
    ensures data == 0 && s == Disliked ==> r == Some(Liked)
    ensures data == 0 && s != Disliked ==> r == Some(Disliked)
    ensures r.Some? ==> Consistent(r.value)
  {
    if data == 1 then
      if s.liked && !s.disliked then Some(s.(liked := false))
      else Some(s.(liked := true, disliked := false))
    else if data == 0 then
      if s.disliked && !s.liked then Some(s.(disliked := false, liked := true))
      else Some(s.(disliked := true, liked := false))
    else None
  }

  /** The record's state after a series of requests, in order; a request the
      handler rejects leaves the record unchanged. */
  function Run(s: ReactionState, inputs: seq<int>): ReactionState
    decreases |inputs|
  {
    if inputs == [] then s
    else
      var next := match Step(s, inputs[0]) case Some(t) => t case None => s;
      Run(next, inputs[1..])
  }

  /** `n` copies of the same request. */
  function Repeat(data: int, n: nat): (r: seq<int>)
    ensures |r| == n
    ensures forall i :: 0 <= i < n ==> r[i] == data
  {
    if n == 0 then [] else [data] + Repeat(data, n - 1)
  }

  /** Every reachable record stays in one of the three states, however many
      requests of whatever kind arrive. */
  lemma {:induction false} RunKeepsConsistent(s: ReactionState, inputs: seq<int>)
    requires Consistent(s)
    ensures Consistent(Run(s, inputs))
    decreases |inputs|
  {
    if inputs != [] {
      var next := match Step(s, inputs[0]) case Some(t) => t case None => s;
      RunKeepsConsistent(next, inputs[1..]);
    }
  }

  /** A vote repairs even a record that is both liked and disliked: whatever the
      starting state, a series that contains a vote ends in one of the three
      states. */
  lemma {:induction false} VoteMakesConsistent(s: ReactionState, inputs: seq<int>, k: nat)
    requires k < |inputs| && IsVote(inputs[k])
    ensures Consistent(Run(s, inputs))
    decreases k
  {
    var next := match Step(s, inputs[0]) case Some(t) => t case None => s;
    if k == 0 {
      RunKeepsConsistent(next, inputs[1..]);
    } else {
      VoteMakesConsistent(next, inputs[1..], k - 1);
    }
  }

  /** Repeated likes from a fresh record alternate: an odd number leaves it
      liked, an even number leaves it neutral. */
  lemma {:induction false} RepeatedLikes(n: nat)
    ensures Run(Neutral, Repeat(1, n)) == if n % 2 == 1 then Liked else Neutral
    ensures Run(Liked, Repeat(1, n)) == if n % 2 == 1 then Neutral else Liked
  {
    if n > 0 {
      RepeatedLikes(n - 1);
      assert Repeat(1, n)[1..] == Repeat(1, n - 1);
    }
  }

  /** Repeated dislikes never return to neutral: after the first, the record
      alternates between disliked (odd counts) and liked (even counts). */
  lemma {:induction false} RepeatedDislikes(n: nat)
    requires n >= 1
    ensures Run(Neutral, Repeat(0, n)) == if n % 2 == 1 then Disliked else Liked
  {
    assert Repeat(0, n)[1..] == Repeat(0, n - 1);
    DislikesFromDisliked(n - 1);
  }

  lemma {:induction false} DislikesFromDisliked(n: nat)
    ensures Run(Disliked, Repeat(0, n)) == if n % 2 == 1 then Liked else Disliked
    ensures Run(Liked, Repeat(0, n)) == if n % 2 == 1 then Disliked else Liked
  {
    if n > 0 {
      DislikesFromDisliked(n - 1);
      assert Repeat(0, n)[1..] == Repeat(0, n - 1);
    }
  }

  /** Two dislikes in a row from neutral end liked, not neutral: the asymmetry
      of the handler's repeated-dislike branch. */
  lemma DislikeTwiceIsLiked()
    ensures Run(Neutral, [0, 0]) == Liked
    ensures Run(Neutral, [1, 1]) == Neutral
  {
  }
}

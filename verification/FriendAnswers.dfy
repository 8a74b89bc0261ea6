/** When each friend transaction is allowed and what it then changes, in terms of the rows alone. */
module FriendAnswers {
  import opened Common
  import opened Friends

  ghost predicate Pends(s: Social, r: RequestId, u: UserId, v: UserId) {
    r in s.requests && s.requests[r] == FriendRequest(u, v, Pending)
  }

  ghost predicate HasRow(s: Social, r: RequestId, u: UserId, v: UserId) {
    r in s.requests && s.requests[r].sender == u && s.requests[r].receiver == v
  }

  /** The row a request from `u` to `v` is written to: theirs, or else a new one. */
  ghost predicate Written(s: Social, r: RequestId, u: UserId, v: UserId, id: RequestId) {
    HasRow(s, r, u, v) || (r == id && forall q :: !HasRow(s, q, u, v))
  }

  ghost predicate Strangers(s: Social, u: UserId, v: UserId) {
    {(u, v), (v, u)} !! s.friendships && {(u, v), (v, u)} !! s.blocks
  }

  /** With one row from `u` to `v`, whatever is found there is that row. */
  lemma RowsFrom(s: Social, u: UserId, v: UserId)
    requires OneRequestEach(s)
    ensures forall r :: HasRow(s, r, u, v) <==> RequestsFrom(s, u, v) != {} && r == AnyOf(RequestsFrom(s, u, v))
  {
    forall r | HasRow(s, r, u, v) ensures r in RequestsFrom(s, u, v) && r == AnyOf(RequestsFrom(s, u, v)) {
      assert r in RequestsFrom(s, u, v) && AnyOf(RequestsFrom(s, u, v)) in RequestsFrom(s, u, v);
    }
    if RequestsFrom(s, u, v) != {} {
      assert AnyOf(RequestsFrom(s, u, v)) in RequestsFrom(s, u, v);
    }
  }

  /** A request is sent between two strangers with active accounts, none of whom asked the other: on the row an
      earlier request left, if there is one. If the other asked already, the two become friends instead. */
  lemma SendsExactly(s: Social, active: set<UserId>, u: UserId, v: UserId, id: RequestId)
    requires SocialOk(s)
    ensures var tx := Send(s, active, u, v, id);
            var welcome := u != v && {u, v} <= active && Strangers(s, u, v);
            && (tx.reply == Answered <==> welcome && exists r :: Pends(s, r, v, u))
            && (tx.reply == Sent <==>
                  && welcome && (forall r :: !Pends(s, r, v, u) && !Pends(s, r, u, v))
                  && ((forall r :: !HasRow(s, r, u, v)) ==> id !in s.requests))
            && (tx.reply != Answered && tx.reply != Sent ==> tx.social == s && tx.reply.No?)
            && (tx.reply == Answered ==> forall r :: Pends(s, r, v, u) ==>
                  tx.social == Social(s.friendships + {(u, v), (v, u)}, s.requests[r := FriendRequest(v, u, Accepted)], s.blocks))
            && (tx.reply == Sent ==> forall r :: Written(s, r, u, v, id) ==>
                  tx.social == Social(s.friendships, s.requests[r := FriendRequest(u, v, Pending)], s.blocks))
            && (tx.reply == No(CannotFriendSelf) <==> u == v)
            && (tx.reply == No(UserNotFound) <==> u != v && !({u, v} <= active))
            && (tx.reply == No(FriendshipExists) ==> !({(u, v), (v, u)} !! s.friendships))
            && (tx.reply == No(ActionNotAllowed) ==> !({(u, v), (v, u)} !! s.blocks))
            && (tx.reply == No(RequestExists) ==> id in s.requests || exists r :: Pends(s, r, u, v))
  {
    RowsFrom(s, u, v);
    RowsFrom(s, v, u);
    var direct, reverse := RequestsFrom(s, u, v), RequestsFrom(s, v, u);
    forall r ensures Pends(s, r, v, u) <==> HasRow(s, r, v, u) && s.requests[r].status == Pending {
    }
    forall r ensures Pends(s, r, u, v) <==> HasRow(s, r, u, v) && s.requests[r].status == Pending {
    }
    if reverse != {} {
      var r := AnyOf(reverse);
      assert HasRow(s, r, v, u);
      if s.requests[r].status == Pending {
        AcceptKeeps(s, r, u);
        assert Pends(s, r, v, u) && s.requests[r].receiver == u;
      }
    }
    if direct != {} {
      assert HasRow(s, AnyOf(direct), u, v);
    }
    hide RequestsFrom, SocialOk, Pends, HasRow;
  }

  /** The receiver accepts or rejects and the sender cancels a pending request, while both accounts are active;
      accepting makes the two friends. */
  lemma AnswersExactly(s: Social, active: set<UserId>, id: RequestId, actor: UserId, action: Action)
    requires SocialOk(s)
    ensures var tx := Answer(s, active, id, actor, action);
            if id !in s.requests then tx == SocialTx(s, No(RequestNotFound))
            else
              var u, v := s.requests[id].sender, s.requests[id].receiver;
              var may := if action == Cancel then actor == u else actor == v;
              && (tx.reply == Answered <==> may && {u, v} <= active && s.requests[id].status == Pending)
              && (tx.reply == No(ActionNotAllowed) <==> !may)
              && (tx.reply == No(UserNotFound) <==> may && !({u, v} <= active))
              && (tx.reply == No(RequestNotPending) <==> may && {u, v} <= active && s.requests[id].status != Pending)
              && (tx.reply != Answered ==> tx.social == s)
              && (tx.reply == Answered ==>
                    tx.social == match action
                                 case Accept => Social(s.friendships + {(u, v), (v, u)}, s.requests[id := FriendRequest(u, v, Accepted)], s.blocks)
                                 case Reject => s.(requests := s.requests[id := FriendRequest(u, v, Rejected)])
                                 case Cancel => s.(requests := s.requests[id := FriendRequest(u, v, Withdrawn)]))
  {
    if id in s.requests {
      AcceptKeeps(s, id, actor);
    }
    hide SocialOk, Befriend;
  }

  /** Blocking parts the two, withdraws what is pending between them, and blocks in one direction; unblocking
      takes just that back, and unfriending parts friends. */
  lemma PartsExactly(s: Social, users: set<UserId>, u: UserId, v: UserId)
    ensures var tx := Block(s, users, u, v);
            && (tx.reply == Undone <==> u != v && v in users && (u, v) !in s.blocks)
            && (tx.reply != Undone ==> tx.social == s)
            && (tx.reply == Undone ==>
                  && tx.social.friendships == s.friendships - {(u, v), (v, u)} && tx.social.blocks == s.blocks + {(u, v)}
                  && tx.social.requests.Keys == s.requests.Keys
                  && forall r :: r in s.requests ==>
                       tx.social.requests[r] == if Pends(s, r, u, v) || Pends(s, r, v, u) then s.requests[r].(status := Withdrawn) else s.requests[r])
    ensures Unblock(s, u, v) == if (u, v) in s.blocks then SocialTx(Social(s.friendships, s.requests, s.blocks - {(u, v)}), Undone) else SocialTx(s, No(UserNotFound))
    ensures Remove(s, u, v) == if (u, v) in s.friendships then SocialTx(Social(s.friendships - {(u, v), (v, u)}, s.requests, s.blocks), Undone)
                               else SocialTx(s, No(FriendshipNotFound))
  {
  }

  /** Nothing of an account that asked for its deletion is pending, and nothing else changed; nothing at all is
      left of one that is removed, and everything of the others. */
  lemma AccountsExactly(s: Social, u: UserId)
    ensures var s' := CancelAll(s, u);
            && s'.friendships == s.friendships && s'.blocks == s.blocks && s'.requests.Keys == s.requests.Keys
            && (forall r, v :: Pends(s, r, u, v) ==> s'.requests[r] == FriendRequest(u, v, Withdrawn))
            && (forall r, v :: Pends(s, r, v, u) ==> s'.requests[r] == FriendRequest(v, u, Withdrawn))
            && (forall r :: r in s.requests && (u !in {s.requests[r].sender, s.requests[r].receiver} || s.requests[r].status != Pending) ==> s'.requests[r] == s.requests[r])
    ensures var s' := Forget(s, u);
            && (forall x, y :: (x, y) in s'.friendships <==> (x, y) in s.friendships && u !in {x, y})
            && (forall x, y :: (x, y) in s'.blocks <==> (x, y) in s.blocks && u !in {x, y})
            && (forall r, x, y :: HasRow(s', r, x, y) <==> HasRow(s, r, x, y) && u !in {x, y})
            && (forall r :: r in s'.requests ==> s'.requests[r] == s.requests[r])
  {
    var left, gone := CancelAll(s, u), Forget(s, u);
    assert left.requests.Keys == s.requests.Keys;
    forall r, x, y ensures HasRow(gone, r, x, y) <==> HasRow(s, r, x, y) && u !in {x, y} {
    }
  }
}

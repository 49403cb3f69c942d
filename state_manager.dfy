/** The bot's per-user dialog state: which multi-step conversation a
    Telegram user is in, when it began, and the data it carries. Entries
    older than five minutes are swept away. */
module BotState {
  import opened Base

  /** The dialog a user can be in; `StateNone` is "no dialog". */
  datatype UserState =
    | StateNone
    | StateCreatingProject
    | StateMutingSubscription
    | StateSuspendingSubscription
    | StateUnsubscribing
    | StateCustomMuteDuration
    | StateCustomSuspendDuration

  /** One user's entry; the dialog data (`map[string]interface{}` in the
      bot) is left abstract as `D`. */
  datatype UserContext<D> = UserContext(state: UserState, createdAt: Time, data: D)

  /** An entry is stale once it is strictly more than this old. */
  const STALE_AFTER: int := 5 * MINUTE

  predicate Stale<D>(c: UserContext<D>, now: Time)
    ensures Stale(c, now) ==> c.createdAt < now
  {
    now - c.createdAt > STALE_AFTER
  }

  /** An entry that is stale stays stale as time goes on. */
  lemma StaleStaysStale<D>(c: UserContext<D>, now: Time, later: Time)
    requires Stale(c, now) && now <= later
    ensures Stale(c, later)
  {
  }

  /** What a lookup in the table answers: the state, the data (absent for
      a user without an entry) and whether there was an entry. */
  function Entry<D>(table: map<int, UserContext<D>>, userId: int): (r: (UserState, Option<D>, bool))
    ensures r.2 <==> userId in table
    ensures !r.2 ==> r.0 == StateNone && r.1 == None
    ensures r.2 ==> r.0 == table[userId].state && r.1 == Some(table[userId].data)
  {
    if userId in table then (table[userId].state, Some(table[userId].data), true)
    else (StateNone, None, false)
  }

  /** The table after a sweep at `now` that has still to look at the
      users in `pending`: those are kept, the others only when fresh. */
  function SweptExcept<D>(table: map<int, UserContext<D>>, now: Time, pending: set<int>): map<int, UserContext<D>> {
    map u | u in table && (u in pending || !Stale(table[u], now)) :: table[u]
  }

  /** The table after a complete sweep at `now`. */
  function KeepFresh<D>(table: map<int, UserContext<D>>, now: Time): (r: map<int, UserContext<D>>)
    ensures forall u :: u in r <==> u in table && !Stale(table[u], now)
    ensures forall u | u in r :: r[u] == table[u]
  {
    SweptExcept(table, now, {})
  }

  /** A set of users is empty or has a member. */
  lemma EmptyOrMember(s: set<int>)
    ensures s == {} || exists v :: v in s
  {
    if !(exists v :: v in s) {
      assert s == {};
    }
  }

  class StateManager<D> {
    var userStates: map<int, UserContext<D>>

    /** `NewStateManager`: an empty table (the sweeping goroutine it
        starts is modelled by `SweepStale`). */
    constructor()
      ensures userStates == map[]
    {
      userStates := map[];
    }

    /** `GetState`: the user's state and data with `true`, or `StateNone`,
        no data and `false` for a user without an entry. */
    method GetState(userId: int) returns (state: UserState, data: Option<D>, exists_: bool)
      ensures exists_ <==> userId in userStates
      ensures exists_ ==> state == userStates[userId].state && data == Some(userStates[userId].data)
      ensures !exists_ ==> state == StateNone && data == None
      ensures (state, data, exists_) == Entry(userStates, userId)
    {
      if userId !in userStates {
        return StateNone, None, false;
      }
      var ctx := userStates[userId];
      return ctx.state, Some(ctx.data), true;
    }

    /** `SetState`: replaces the user's entry, stamped with `now`; every
        other entry is kept. */
    method SetState(userId: int, state: UserState, data: D, now: Time)
      modifies this
      ensures userStates == old(userStates)[userId := UserContext(state, now, data)]
    {
      userStates := userStates[userId := UserContext(state, now, data)];
    }

    /** `ClearState`: removes the user's entry, if any; every other entry
        is kept. */
    method ClearState(userId: int)
      modifies this
      ensures userStates == old(userStates) - {userId}
    {
      userStates := userStates - {userId};
    }

    /** One tick of `cleanupStaleStates`: visits every entry and deletes
        those strictly older than five minutes at `now`. */
    method SweepStale(now: Time)
      modifies this
      ensures userStates == KeepFresh(old(userStates), now)
    {
      ghost var start := userStates;
      var pending := userStates.Keys;
      while pending != {}
        invariant pending <= start.Keys
        invariant userStates == SweptExcept(start, now, pending)
        decreases |pending|
      {
        EmptyOrMember(pending);
        var u :| u in pending;
        if Stale(userStates[u], now) {
          userStates := userStates - {u};
        }
        pending := pending - {u};
      }
    }
  }

  /** After `SetState`, a lookup of that user answers what was set. */
  lemma GetAfterSet<D>(table: map<int, UserContext<D>>, userId: int, state: UserState, data: D, now: Time)
    ensures Entry(table[userId := UserContext(state, now, data)], userId) == (state, Some(data), true)
  {
  }

  /** `SetState` and `ClearState` leave every other user's answer alone. */
  lemma OthersUnaffected<D>(table: map<int, UserContext<D>>, userId: int, other: int, c: UserContext<D>)
    requires other != userId
    ensures Entry(table[userId := c], other) == Entry(table, other)
    ensures Entry(table - {userId}, other) == Entry(table, other)
  {
  }

  /** After `ClearState`, the user has no entry. */
  lemma GetAfterClear<D>(table: map<int, UserContext<D>>, userId: int)
    ensures Entry(table - {userId}, userId) == (StateNone, None, false)
  {
  }

  /** An entry set at `t` survives every sweep up to and including
      `t` plus five minutes, and none after. */
  lemma {:induction false} FreshForFiveMinutes<D>(table: map<int, UserContext<D>>, userId: int, c: UserContext<D>, now: Time)
    ensures userId in KeepFresh(table[userId := c], now) <==> now <= c.createdAt + STALE_AFTER
  {
    var t := table[userId := c];
    assert userId in t && t[userId] == c;
  }

  /** A second sweep at the same time or later removes no less than the
      later sweep alone would: sweeping at `t1` and then at `t2 >= t1` is
      sweeping at `t2`. */
  lemma {:induction false} SweepsCompose<D>(table: map<int, UserContext<D>>, t1: Time, t2: Time)
    requires t1 <= t2
    ensures KeepFresh(KeepFresh(table, t1), t2) == KeepFresh(table, t2)
  {
    var once := KeepFresh(table, t1);
    var twice := KeepFresh(once, t2);
    var direct := KeepFresh(table, t2);
    forall u ensures u in twice <==> u in direct {
      if u in table && !Stale(table[u], t2) {
        assert !Stale(table[u], t1);
      }
    }
    assert twice.Keys == direct.Keys;
  }

  /** Clearing a user and sweeping can be done in either order. */
  lemma SweepCommutesWithClear<D>(table: map<int, UserContext<D>>, userId: int, now: Time)
    ensures KeepFresh(table - {userId}, now) == KeepFresh(table, now) - {userId}
  {
    assert (KeepFresh(table - {userId}, now)).Keys == (KeepFresh(table, now) - {userId}).Keys;
  }
}

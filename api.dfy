/** The notification endpoint `handleNotify` (internal/app/api/service.go):
    a ladder of checks that decides the HTTP status, then the fan-out of the
    event body to every subscription of the project that is not paused.

    The request is reduced to its method, its Authorization header and the
    outcome of decoding the JSON body; the token and subscription lookups
    of the project and subscription services are inputs; `Paused` is not
    defined in the code this model covers, so it is an input predicate of
    the subscription and the current time. */
module Api {
  import opened Base
  import opened TelegramUserIds
  import opened Messages
  import opened Queue
  import GoStrings

  const StatusOK := 200
  const StatusBadRequest := 400
  const StatusUnauthorized := 401
  const StatusMethodNotAllowed := 405
  const StatusInternalServerError := 500
  const StatusServiceUnavailable := 503

  /** A subscription as the handler reads it (`UserID`, `Muted`,
      `PausedUntil`). */
  datatype Subscriber = Subscriber(userId: TelegramUserId, muted: bool, pausedUntil: Option<Time>)

  /** The parts of the HTTP request the handler looks at; `body` is `None`
      when the JSON body does not decode. */
  datatype Request = Request(httpMethod: string, authorization: string, body: Option<string>)

  /** `strings.TrimPrefix(header, "Bearer ")`. */
  function BearerToken(authorization: string): (r: string)
    ensures "Bearer " <= authorization ==> "Bearer " + r == authorization
    ensures !("Bearer " <= authorization) ==> r == authorization
  {
    GoStrings.TrimPrefix(authorization, "Bearer ")
  }

  /** The message built for one subscription. */
  function MessageFor(sub: Subscriber, body: string): Message {
    Message(sub.userId, body, sub.muted)
  }

  /** The messages the fan-out loop submits, in subscription order: one per
      subscription that is not paused at `now`. */
  function FanOut(subs: seq<Subscriber>, body: string, paused: (Subscriber, Time) -> bool, now: Time): (r: seq<Message>)
    ensures |r| <= |subs|
    ensures forall i | 0 <= i < |r| :: r[i].text == body
  {
    if subs == [] then []
    else
      var last := subs[|subs| - 1];
      FanOut(subs[..|subs| - 1], body, paused, now) + (if paused(last, now) then [] else [MessageFor(last, body)])
  }

  /** The fan-out of a concatenation is the concatenation of the fan-outs. */
  lemma {:induction false} FanOutConcat(s: seq<Subscriber>, t: seq<Subscriber>, body: string, paused: (Subscriber, Time) -> bool, now: Time)
    ensures FanOut(s + t, body, paused, now) == FanOut(s, body, paused, now) + FanOut(t, body, paused, now)
    decreases |t|
  {
    if t == [] {
      assert s + t == s;
    } else {
      var t' := t[..|t| - 1];
      assert (s + t)[..|s + t| - 1] == s + t';
      FanOutConcat(s, t', body, paused, now);
    }
  }

  /** A paused subscription contributes nothing, wherever it stands. */
  lemma FanOutSkipsPaused(s: seq<Subscriber>, sub: Subscriber, t: seq<Subscriber>, body: string, paused: (Subscriber, Time) -> bool, now: Time)
    requires paused(sub, now)
    ensures FanOut(s + [sub] + t, body, paused, now) == FanOut(s + t, body, paused, now)
  {
    FanOutConcat(s + [sub], t, body, paused, now);
    FanOutConcat(s, [sub], body, paused, now);
    FanOutConcat(s, t, body, paused, now);
    assert FanOut([sub], body, paused, now) == FanOut([], body, paused, now) + [];
  }

  /** A subscription that is not paused contributes exactly its own
      message, in its place. */
  lemma FanOutKeepsActive(s: seq<Subscriber>, sub: Subscriber, t: seq<Subscriber>, body: string, paused: (Subscriber, Time) -> bool, now: Time)
    requires !paused(sub, now)
    ensures FanOut(s + [sub] + t, body, paused, now)
         == FanOut(s, body, paused, now) + [Message(sub.userId, body, sub.muted)] + FanOut(t, body, paused, now)
  {
    FanOutConcat(s + [sub], t, body, paused, now);
    FanOutConcat(s, [sub], body, paused, now);
    assert FanOut([sub], body, paused, now) == FanOut([], body, paused, now) + [MessageFor(sub, body)];
  }

  /** A message is submitted exactly when some subscription that is not
      paused has its recipient and mute flag, with the event body. */
  lemma {:induction false} FanOutMembers(subs: seq<Subscriber>, body: string, paused: (Subscriber, Time) -> bool, now: Time, m: Message)
    ensures m in FanOut(subs, body, paused, now) <==>
      exists i | 0 <= i < |subs| :: !paused(subs[i], now) && m == Message(subs[i].userId, body, subs[i].muted)
  {
    if subs != [] {
      var init := subs[..|subs| - 1];
      var last := subs[|subs| - 1];
      var tail := if paused(last, now) then [] else [MessageFor(last, body)];
      assert FanOut(subs, body, paused, now) == FanOut(init, body, paused, now) + tail;
      assert m in FanOut(subs, body, paused, now) <==> m in FanOut(init, body, paused, now) || m in tail;
      FanOutMembers(init, body, paused, now, m);
      if exists i | 0 <= i < |subs| :: !paused(subs[i], now) && m == Message(subs[i].userId, body, subs[i].muted) {
        var i :| 0 <= i < |subs| && !paused(subs[i], now) && m == Message(subs[i].userId, body, subs[i].muted);
        if i < |subs| - 1 {
          assert init[i] == subs[i];
        }
      }
      if m in FanOut(init, body, paused, now) {
        var i :| 0 <= i < |init| && !paused(init[i], now) && m == Message(init[i].userId, body, init[i].muted);
        assert subs[i] == init[i];
      }
    }
  }

  /** The fan-out of subscriptions none of which is paused has one message
      per subscription, position by position. */
  lemma {:induction false} FanOutAllActive(subs: seq<Subscriber>, body: string, paused: (Subscriber, Time) -> bool, now: Time)
    requires forall i | 0 <= i < |subs| :: !paused(subs[i], now)
    ensures |FanOut(subs, body, paused, now)| == |subs|
    ensures forall i | 0 <= i < |subs| :: FanOut(subs, body, paused, now)[i] == Message(subs[i].userId, body, subs[i].muted)
  {
    if subs != [] {
      var init := subs[..|subs| - 1];
      FanOutAllActive(init, body, paused, now);
    }
  }

  /** Recipients A (active), B (paused) and C (muted) and the event
      "hello": exactly A's audible and C's silent message are submitted. */
  lemma ThreeRecipients(a: TelegramUserId, b: TelegramUserId, c: TelegramUserId, paused: (Subscriber, Time) -> bool, now: Time, until: Time)
    requires !paused(Subscriber(a, false, None), now)
    requires paused(Subscriber(b, false, Some(until)), now)
    requires !paused(Subscriber(c, true, None), now)
    ensures FanOut([Subscriber(a, false, None), Subscriber(b, false, Some(until)), Subscriber(c, true, None)], "hello", paused, now)
         == [Message(a, "hello", false), Message(c, "hello", true)]
  {
    var subs := [Subscriber(a, false, None), Subscriber(b, false, Some(until)), Subscriber(c, true, None)];
    assert subs[..2][..1][..0] == [];
    assert FanOut(subs[..2][..1], "hello", paused, now) == [Message(a, "hello", false)];
    assert FanOut(subs[..2], "hello", paused, now) == [Message(a, "hello", false)];
  }

  lemma {:induction false} FanOutPrefix(subs: seq<Subscriber>, i: nat, body: string, paused: (Subscriber, Time) -> bool, now: Time)
    requires i <= |subs|
    ensures FanOut(subs[..i], body, paused, now) <= FanOut(subs, body, paused, now)
    decreases |subs| - i
  {
    if i < |subs| {
      FanOutPrefix(subs, i + 1, body, paused, now);
      assert subs[..i + 1][..i] == subs[..i];
    } else {
      assert subs[..i] == subs;
    }
  }

  lemma FanOutStep(subs: seq<Subscriber>, i: nat, body: string, paused: (Subscriber, Time) -> bool, now: Time)
    requires i < |subs|
    ensures FanOut(subs[..i + 1], body, paused, now) == FanOut(subs[..i], body, paused, now) +
      (if paused(subs[i], now) then [] else [Message(subs[i].userId, body, subs[i].muted)])
  {
    assert subs[..i + 1][..i] == subs[..i];
  }

  /** When the queue fills up at subscription `i`, the fan-out is longer
      than the room and what fitted is its prefix. */
  lemma FanOutOverflowsAt(subs: seq<Subscriber>, i: nat, body: string, paused: (Subscriber, Time) -> bool, now: Time, room: int)
    requires i < |subs| && !paused(subs[i], now)
    requires |FanOut(subs[..i], body, paused, now)| == room
    ensures |FanOut(subs, body, paused, now)| > room >= 0
    ensures FanOut(subs, body, paused, now)[..room] == FanOut(subs[..i], body, paused, now)
  {
    FanOutPrefix(subs, i + 1, body, paused, now);
    assert subs[..i + 1][..i] == subs[..i];
  }

  /** The checks `handleNotify` runs before the fan-out, in order. The
      first one that fails decides the status: not POST (405), no bearer
      token (401), an undecodable body (400), an unknown token (401), a
      failed subscription lookup (500). When all pass, the result is the
      event body and the project's subscriptions. */
  function Admission(req: Request, projectByToken: string -> Option<Uuid>, subscriptionsOf: Uuid -> Option<seq<Subscriber>>)
    : (r: Result<(string, seq<Subscriber>), int>)
    ensures r == Err(StatusMethodNotAllowed) <==> req.httpMethod != "POST"
    ensures r == Err(StatusBadRequest) <==>
      (req.httpMethod == "POST" && BearerToken(req.authorization) != "" && req.body.None?)
    ensures r == Err(StatusUnauthorized) <==>
      (req.httpMethod == "POST" &&
       (BearerToken(req.authorization) == "" ||
        (req.body.Some? && projectByToken(BearerToken(req.authorization)).None?)))
    ensures r == Err(StatusInternalServerError) <==>
      (req.httpMethod == "POST" && BearerToken(req.authorization) != "" && req.body.Some? &&
       projectByToken(BearerToken(req.authorization)).Some? &&
       subscriptionsOf(projectByToken(BearerToken(req.authorization)).value).None?)
    ensures r.Ok? <==>
      (req.httpMethod == "POST" && BearerToken(req.authorization) != "" && req.body.Some? &&
       projectByToken(BearerToken(req.authorization)).Some? &&
       subscriptionsOf(projectByToken(BearerToken(req.authorization)).value).Some?)
    ensures r.Ok? ==> r.value == (req.body.value, subscriptionsOf(projectByToken(BearerToken(req.authorization)).value).value)
  {
    if req.httpMethod != "POST" then Err(StatusMethodNotAllowed)
    else
      var token := BearerToken(req.authorization);
      if token == "" then Err(StatusUnauthorized)
      else if req.body.None? then Err(StatusBadRequest)
      else
        var project := projectByToken(token);
        if project.None? then Err(StatusUnauthorized)
        else
          var subs := subscriptionsOf(project.value);
          if subs.None? then Err(StatusInternalServerError)
          else Ok((req.body.value, subs.value))
  }

  /** One turn of the fan-out loop: a paused subscription is skipped;
      otherwise its message is `Put`, and `refused` says whether the queue
      was full. */
  method SubmitOne(q: Queue, sub: Subscriber, body: string, paused: (Subscriber, Time) -> bool, now: Time)
    returns (refused: bool)
    requires q.Valid() && !q.closed && q.phase != Exited
    modifies q
    ensures q.Valid() && !q.closed && q.phase == old(q.phase) && q.consumed == old(q.consumed)
    ensures refused ==> !paused(sub, now) && |q.buffer| == q.config.capacity
    ensures q.buffer == old(q.buffer) +
      (if paused(sub, now) || refused then [] else [Message(sub.userId, body, sub.muted)])
  {
    refused := false;
    if !paused(sub, now) {
      var r := q.Put(Message(sub.userId, body, sub.muted));
      refused := r == ErrQueueFull;
    }
  }

  /** The fan-out loop of `handleNotify`, stated by how far it got: it
      submits the fan-out of the subscriptions before `stoppedAt`; it
      stopped early (`full`) exactly when `Put` refused the message of the
      subscription at `stoppedAt` because the buffer was at capacity. */
  method SubmitUntilFull(q: Queue, subs: seq<Subscriber>, body: string, paused: (Subscriber, Time) -> bool, now: Time)
    returns (full: bool, ghost stoppedAt: nat)
    requires q.Valid() && !q.closed && q.phase != Exited
    modifies q
    ensures q.Valid() && !q.closed && q.phase == old(q.phase)
    ensures q.consumed == old(q.consumed) && stoppedAt <= |subs|
    ensures q.buffer == old(q.buffer) + FanOut(subs[..stoppedAt], body, paused, now)
    ensures full ==> stoppedAt < |subs| && !paused(subs[stoppedAt], now) && |q.buffer| == q.config.capacity
    ensures !full ==> stoppedAt == |subs|
  {
    var i := 0;
    while i < |subs|
      invariant 0 <= i <= |subs|
      invariant q.Valid() && !q.closed && q.phase == old(q.phase)
      invariant q.consumed == old(q.consumed)
      invariant q.buffer == old(q.buffer) + FanOut(subs[..i], body, paused, now)
    {
      ghost var done := FanOut(subs[..i], body, paused, now);
      FanOutStep(subs, i, body, paused, now);
      var refused := SubmitOne(q, subs[i], body, paused, now);
      if refused {
        return true, i;
      }
      assert q.buffer == old(q.buffer) + done + (if paused(subs[i], now) then [] else [Message(subs[i].userId, body, subs[i].muted)]);
      i := i + 1;
    }
    return false, i;
  }

  /** The fan-out loop of `handleNotify`: submits the message of every
      subscription that is not paused, in order, and stops at the first
      `ErrQueueFull`. `full` says whether it stopped early; the queue then
      holds exactly the part of the fan-out that fitted. */
  method SubmitFanOut(q: Queue, subs: seq<Subscriber>, body: string, paused: (Subscriber, Time) -> bool, now: Time)
    returns (full: bool)
    requires q.Valid() && !q.closed && q.phase != Exited
    modifies q
    ensures q.Valid() && !q.closed && q.phase == old(q.phase)
    ensures q.consumed == old(q.consumed)
    ensures full == (|FanOut(subs, body, paused, now)| > q.config.capacity - |old(q.buffer)|)
    ensures q.buffer == old(q.buffer) +
      (if full then FanOut(subs, body, paused, now)[..q.config.capacity - |old(q.buffer)|]
       else FanOut(subs, body, paused, now))
    ensures q.accepted == old(q.accepted) + q.buffer[|old(q.buffer)|..]
  {
    ghost var stoppedAt;
    full, stoppedAt := SubmitUntilFull(q, subs, body, paused, now);
    var done := FanOut(subs[..stoppedAt], body, paused, now);
    assert q.buffer[|old(q.buffer)|..] == done;
    if full {
      FanOutOverflowsAt(subs, stoppedAt, body, paused, now, q.config.capacity - |old(q.buffer)|);
    } else {
      assert subs[..stoppedAt] == subs;
    }
  }

  /** `handleNotify`: a failed check answers its status with nothing
      submitted; otherwise the fan-out is submitted in order until the queue
      is full, answering 200 when all of it fits and 503 when not, with
      exactly the part that fitted left in the queue. */
  method HandleNotify(
    q: Queue, req: Request,
    projectByToken: string -> Option<Uuid>,
    subscriptionsOf: Uuid -> Option<seq<Subscriber>>,
    paused: (Subscriber, Time) -> bool, now: Time)
    returns (status: int)
    requires q.Valid() && !q.closed && q.phase != Exited
    modifies q
    ensures q.Valid() && !q.closed && q.phase == old(q.phase)
    ensures q.consumed == old(q.consumed) && old(q.buffer) <= q.buffer
    ensures q.accepted == old(q.accepted) + q.buffer[|old(q.buffer)|..]
    ensures match Admission(req, projectByToken, subscriptionsOf)
      case Err(code) => status == code && q.buffer == old(q.buffer)
      case Ok((body, subs)) =>
        var msgs := FanOut(subs, body, paused, now);
        var room := q.config.capacity - |old(q.buffer)|;
        if |msgs| <= room then status == StatusOK && q.buffer == old(q.buffer) + msgs
        else status == StatusServiceUnavailable && q.buffer == old(q.buffer) + msgs[..room]
  {
    if req.httpMethod != "POST" {
      return StatusMethodNotAllowed;
    }
    var token := BearerToken(req.authorization);
    if token == "" {
      return StatusUnauthorized;
    }
    if req.body.None? {
      return StatusBadRequest;
    }
    var project := projectByToken(token);
    if project.None? {
      return StatusUnauthorized;
    }
    var found := subscriptionsOf(project.value);
    if found.None? {
      return StatusInternalServerError;
    }
    var full := SubmitFanOut(q, found.value, req.body.value, paused, now);
    status := if full then StatusServiceUnavailable else StatusOK;
  }
}

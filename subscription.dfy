/** The subscription service (internal/domain/subscription.go) over an
    in-memory subscription repository (internal/app/db/subscription.go)
    whose only key is the record's ID: nothing stops two records for the
    same user and project. Each repository call receives a flag saying
    whether the database fails; the wrapped errors name the step that
    failed. */
module Subscriptions {
  import opened Base
  import opened TelegramUserIds

  /** `domain.Subscription`. */
  datatype Subscription = Subscription(
    id: Uuid, userId: TelegramUserId, projectId: Uuid,
    createdAt: Time, updatedAt: Time,
    silencedUntil: Option<Time>, mutedUntil: Option<Time>)

  /** The service's wrapped errors, one per failing step. */
  datatype SubscriptionError =
    | CreatingSubscription(cause: RepoError)
    | DeletingSubscription(cause: RepoError)
    | GettingSubscription(cause: RepoError)
    | UpdatingSubscription(cause: RepoError)
    | GettingProjectSubscriptions(cause: RepoError)
    | GettingUserSubscriptions(cause: RepoError)

  /** The record `Subscribe` builds: the given user and project, created
      and updated now, neither silenced nor muted. */
  function NewSubscription(id: Uuid, userId: TelegramUserId, projectId: Uuid, now: Time): (s: Subscription)
    ensures s.id == id && s.userId == userId && s.projectId == projectId
    ensures s.createdAt == now && s.updatedAt == now
    ensures s.silencedUntil == None && s.mutedUntil == None
  {
    Subscription(id, userId, projectId, now, now, None, None)
  }

  /** The ids of the records of a user and project. */
  function Matching(records: map<Uuid, Subscription>, userId: TelegramUserId, projectId: Uuid): (r: set<Uuid>)
    ensures forall id :: id in r <==> id in records && records[id].userId == userId && records[id].projectId == projectId
  {
    set id | id in records && records[id].userId == userId && records[id].projectId == projectId
  }

  /** A least id of a non-empty set, found by taking elements out one at
      a time. */
  ghost function LeastWitness(ids: set<Uuid>): (r: Uuid)
    requires ids != {}
    ensures r in ids && forall i | i in ids :: r <= i
    decreases |ids|
  {
    var x :| x in ids;
    var rest := ids - {x};
    assert forall i | i in ids :: i in rest || i == x;
    if rest == {} then x
    else
      var m := LeastWitness(rest);
      if x < m then x else m
  }

  /** The row `First` answers: gorm orders by the primary key and takes the
      least. */
  function Least(ids: set<Uuid>): (r: Uuid)
    requires ids != {}
    ensures r in ids && forall i | i in ids :: r <= i
  {
    var w := LeastWitness(ids);
    var m :| m in ids && forall i | i in ids :: m <= i;
    m
  }

  /** The four read-modify-write mutators differ only in the field they
      assign. */
  datatype Change = Silence(until: Time) | Unsilence | Mute(until: Time) | Unmute

  /** The identity of a record: what no mutator touches. */
  predicate SameIdentity(a: Subscription, b: Subscription) {
    a.id == b.id && a.userId == b.userId && a.projectId == b.projectId && a.createdAt == b.createdAt
  }

  /** The record after a change made at `now`: the one field the change is
      about takes its new value, `UpdatedAt` becomes `now`, and everything
      else stays. */
  function Apply(c: Change, s: Subscription, now: Time): (r: Subscription)
    ensures SameIdentity(s, r) && r.updatedAt == now
    ensures r.silencedUntil == match c
      case Silence(t) => Some(t)
      case Unsilence => None
      case _ => s.silencedUntil
    ensures r.mutedUntil == match c
      case Mute(t) => Some(t)
      case Unmute => None
      case _ => s.mutedUntil
  {
    match c
    case Silence(t) => s.(silencedUntil := Some(t), updatedAt := now)
    case Unsilence => s.(silencedUntil := None, updatedAt := now)
    case Mute(t) => s.(mutedUntil := Some(t), updatedAt := now)
    case Unmute => s.(mutedUntil := None, updatedAt := now)
  }

  /** Unsilencing undoes any silencing before it, and unmuting any muting. */
  lemma UndoChange(s: Subscription, t: Time, now1: Time, now2: Time)
    ensures Apply(Unsilence, Apply(Silence(t), s, now1), now2) == Apply(Unsilence, s, now2)
    ensures Apply(Unmute, Apply(Mute(t), s, now1), now2) == Apply(Unmute, s, now2)
  {
  }

  /** Silencing and muting are independent: their order does not matter. */
  lemma SilenceMuteCommute(s: Subscription, t1: Time, t2: Time, now: Time)
    ensures Apply(Mute(t2), Apply(Silence(t1), s, now), now) == Apply(Silence(t1), Apply(Mute(t2), s, now), now)
  {
  }

  /** `SubscriptionService` with its repository's records, by ID. */
  class SubscriptionService {
    var records: map<Uuid, Subscription>

    /** Every record is stored under its own ID. */
    ghost predicate Valid()
      reads this
    {
      forall id | id in records :: records[id].id == id
    }

    /** `NewSubscriptionService` over an empty repository. */
    constructor ()
      ensures Valid() && records == map[]
    {
      records := map[];
    }

    /** Repository `GetByUserAndProject`: the first record of the user and
        project in ID order, not found, or the database's failure. */
    method Lookup(userId: TelegramUserId, projectId: Uuid, fails: bool) returns (r: Result<Subscription, RepoError>)
      requires Valid()
      ensures fails ==> r == Err(StoreFailure)
      ensures !fails && Matching(records, userId, projectId) == {} ==> r == Err(RecordNotFound)
      ensures !fails && Matching(records, userId, projectId) != {} ==>
        r == Ok(records[Least(Matching(records, userId, projectId))])
      ensures r.Ok? ==> r.value in records.Values && r.value.userId == userId && r.value.projectId == projectId
    {
      if fails {
        return Err(StoreFailure);
      }
      var ids := Matching(records, userId, projectId);
      if ids == {} {
        return Err(RecordNotFound);
      }
      return Ok(records[Least(ids)]);
    }

    /** `Subscribe`: stores a new record under a fresh ID (`uuid.New`),
        whether or not the user already has one for the project; a failing
        repository `Create` is the only error, and leaves the repository
        as it was. */
    method Subscribe(userId: TelegramUserId, projectId: Uuid, freshId: Uuid, now: Time, createFails: bool)
      returns (err: Option<SubscriptionError>)
      requires Valid() && freshId !in records
      modifies this
      ensures Valid()
      ensures createFails ==> err == Some(CreatingSubscription(StoreFailure)) && records == old(records)
      ensures !createFails ==>
        err == None && records == old(records)[freshId := NewSubscription(freshId, userId, projectId, now)]
    {
      if createFails {
        return Some(CreatingSubscription(StoreFailure));
      }
      records := records[freshId := NewSubscription(freshId, userId, projectId, now)];
      err := None;
    }

    /** `Unsubscribe`: deletes every record of the user for the project and
        no other. */
    method Unsubscribe(userId: TelegramUserId, projectId: Uuid, deleteFails: bool)
      returns (err: Option<SubscriptionError>)
      requires Valid()
      modifies this
      ensures Valid()
      ensures deleteFails ==> err == Some(DeletingSubscription(StoreFailure)) && records == old(records)
      ensures !deleteFails ==> err == None && records == old(records) - Matching(old(records), userId, projectId)
      ensures Matching(records, userId, projectId) == {} || deleteFails
    {
      if deleteFails {
        return Some(DeletingSubscription(StoreFailure));
      }
      records := records - Matching(records, userId, projectId);
      err := None;
    }

    /** The shared read-modify-write: look up the first matching record,
        apply the change, `Save` it under its ID. A failed lookup returns
        its error and writes nothing; a failed write leaves the repository
        as it was. */
    method Rewrite(userId: TelegramUserId, projectId: Uuid, c: Change, now: Time, getFails: bool, updateFails: bool)
      returns (err: Option<SubscriptionError>)
      requires Valid()
      modifies this
      ensures Valid()
      ensures getFails ==> err == Some(GettingSubscription(StoreFailure)) && records == old(records)
      ensures !getFails && Matching(old(records), userId, projectId) == {} ==>
        err == Some(GettingSubscription(RecordNotFound)) && records == old(records)
      ensures !getFails && Matching(old(records), userId, projectId) != {} && updateFails ==>
        err == Some(UpdatingSubscription(StoreFailure)) && records == old(records)
      ensures !getFails && Matching(old(records), userId, projectId) != {} && !updateFails ==>
        var id := Least(Matching(old(records), userId, projectId));
        err == None && records == old(records)[id := Apply(c, old(records)[id], now)]
    {
      var found := Lookup(userId, projectId, getFails);
      if found.Err? {
        return Some(GettingSubscription(found.error));
      }
      var updated := Apply(c, found.value, now);
      if updateFails {
        return Some(UpdatingSubscription(StoreFailure));
      }
      records := records[updated.id := updated];
      err := None;
    }

    /** `SilenceNotifications`: sets `SilencedUntil` of the user's first record for the project
        and of no other. */
    method SilenceNotifications(userId: TelegramUserId, projectId: Uuid, until: Time, now: Time, getFails: bool, updateFails: bool)
      returns (err: Option<SubscriptionError>)
      requires Valid()
      modifies this
      ensures Valid()
      ensures err == None <==> !getFails && Matching(old(records), userId, projectId) != {} && !updateFails
      ensures err != None ==> records == old(records)
      ensures err == None ==>
        var id := Least(Matching(old(records), userId, projectId));
        records == old(records)[id := old(records)[id].(silencedUntil := Some(until), updatedAt := now)]
    {
      err := Rewrite(userId, projectId, Silence(until), now, getFails, updateFails);
    }

    /** `UnsilenceNotifications`: clears `SilencedUntil` of the user's first record for the project
        and of no other. */
    method UnsilenceNotifications(userId: TelegramUserId, projectId: Uuid, now: Time, getFails: bool, updateFails: bool)
      returns (err: Option<SubscriptionError>)
      requires Valid()
      modifies this
      ensures Valid()
      ensures err == None <==> !getFails && Matching(old(records), userId, projectId) != {} && !updateFails
      ensures err != None ==> records == old(records)
      ensures err == None ==>
        var id := Least(Matching(old(records), userId, projectId));
        records == old(records)[id := old(records)[id].(silencedUntil := None, updatedAt := now)]
    {
      err := Rewrite(userId, projectId, Unsilence, now, getFails, updateFails);
    }

    /** `MuteNotifications`: sets `MutedUntil` of the user's first record for the project
        and of no other. */
    method MuteNotifications(userId: TelegramUserId, projectId: Uuid, until: Time, now: Time, getFails: bool, updateFails: bool)
      returns (err: Option<SubscriptionError>)
      requires Valid()
      modifies this
      ensures Valid()
      ensures err == None <==> !getFails && Matching(old(records), userId, projectId) != {} && !updateFails
      ensures err != None ==> records == old(records)
      ensures err == None ==>
        var id := Least(Matching(old(records), userId, projectId));
        records == old(records)[id := old(records)[id].(mutedUntil := Some(until), updatedAt := now)]
    {
      err := Rewrite(userId, projectId, Mute(until), now, getFails, updateFails);
    }

    /** `UnmuteNotifications`: clears `MutedUntil` of the user's first record for the project
        and of no other. */
    method UnmuteNotifications(userId: TelegramUserId, projectId: Uuid, now: Time, getFails: bool, updateFails: bool)
      returns (err: Option<SubscriptionError>)
      requires Valid()
      modifies this
      ensures Valid()
      ensures err == None <==> !getFails && Matching(old(records), userId, projectId) != {} && !updateFails
      ensures err != None ==> records == old(records)
      ensures err == None ==>
        var id := Least(Matching(old(records), userId, projectId));
        records == old(records)[id := old(records)[id].(mutedUntil := None, updatedAt := now)]
    {
      err := Rewrite(userId, projectId, Unmute, now, getFails, updateFails);
    }

    /** `GetProjectSubscriptions`: exactly the project's records, or the
        repository's error. */
    method GetProjectSubscriptions(projectId: Uuid, fails: bool)
      returns (r: Result<set<Subscription>, SubscriptionError>)
      requires Valid()
      ensures fails <==> r.Err?
      ensures r.Err? ==> r.error == GettingProjectSubscriptions(StoreFailure)
      ensures r.Ok? ==> forall s :: s in r.value <==> s in records.Values && s.projectId == projectId
    {
      if fails {
        return Err(GettingProjectSubscriptions(StoreFailure));
      }
      var found := set id | id in records && records[id].projectId == projectId :: records[id];
      return Ok(found);
    }

    /** `GetUserSubscriptions`: exactly the user's records, or the
        repository's error. */
    method GetUserSubscriptions(userId: TelegramUserId, fails: bool)
      returns (r: Result<set<Subscription>, SubscriptionError>)
      requires Valid()
      ensures fails <==> r.Err?
      ensures r.Err? ==> r.error == GettingUserSubscriptions(StoreFailure)
      ensures r.Ok? ==> forall s :: s in r.value <==> s in records.Values && s.userId == userId
    {
      if fails {
        return Err(GettingUserSubscriptions(StoreFailure));
      }
      var found := set id | id in records && records[id].userId == userId :: records[id];
      return Ok(found);
    }
  }

  /** Subscribing twice to the same project stores two records, so the
      project lists the user twice; muting afterwards reaches only the
      record with the lower ID. */
  method SubscribeTwiceScenario(userId: TelegramUserId, projectId: Uuid, id1: Uuid, id2: Uuid, t1: Time, t2: Time, until: Time, now: Time)
    returns (e1: Option<SubscriptionError>, e2: Option<SubscriptionError>, listed: Result<set<Subscription>, SubscriptionError>,
             e3: Option<SubscriptionError>, after: Result<set<Subscription>, SubscriptionError>)
    requires id1 < id2
    ensures e1 == None && e2 == None && e3 == None
    ensures listed == Ok({NewSubscription(id1, userId, projectId, t1), NewSubscription(id2, userId, projectId, t2)})
    ensures after == Ok({NewSubscription(id1, userId, projectId, t1).(mutedUntil := Some(until), updatedAt := now),
                         NewSubscription(id2, userId, projectId, t2)})
  {
    var s1, s2 := NewSubscription(id1, userId, projectId, t1), NewSubscription(id2, userId, projectId, t2);
    var svc := new SubscriptionService();
    e1 := svc.Subscribe(userId, projectId, id1, t1, false);
    e2 := svc.Subscribe(userId, projectId, id2, t2, false);
    assert svc.records == map[id1 := s1, id2 := s2];
    listed := svc.GetProjectSubscriptions(projectId, false);
    assert forall s :: s in svc.records.Values <==> s == s1 || s == s2 by {
      forall s ensures s in svc.records.Values <==> s == s1 || s == s2 {
        if s == s1 { assert svc.records[id1] == s1; }
        if s == s2 { assert svc.records[id2] == s2; }
      }
    }
    assert listed.value == {s1, s2};
    assert Matching(svc.records, userId, projectId) == {id1, id2};
    e3 := svc.MuteNotifications(userId, projectId, until, now, false, false);
    var m1 := s1.(mutedUntil := Some(until), updatedAt := now);
    assert svc.records == map[id1 := m1, id2 := s2];
    after := svc.GetProjectSubscriptions(projectId, false);
    assert forall s :: s in svc.records.Values <==> s == m1 || s == s2 by {
      forall s ensures s in svc.records.Values <==> s == m1 || s == s2 {
        if s == m1 { assert svc.records[id1] == m1; }
        if s == s2 { assert svc.records[id2] == s2; }
      }
    }
    assert after.value == {m1, s2};
  }
}

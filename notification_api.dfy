/** The notification queries (entities/notification/api/index.ts): the
    distinct actor ids of the fetched rows, the id-to-profile lookup built
    from the actor query, the join of the two, and the row that
    `createNotification` writes. */
module NotificationApi {
  import opened Common
  import opened Types

  /** Some row has `x` as a truthy actor id. */
  predicate HasActor(rows: seq<Notification>, x: string) {
    x != "" && exists i :: 0 <= i < |rows| && rows[i].actorId == Some(x)
  }

  lemma HasActorTail(rows: seq<Notification>, x: string)
    requires rows != []
    ensures HasActor(rows, x) <==> HasActor(rows[1..], x) || (x != "" && rows[0].actorId == Some(x))
  {
    if HasActor(rows, x) && rows[0].actorId != Some(x) {
      var i :| 0 <= i < |rows| && rows[i].actorId == Some(x);
      assert rows[1..][i - 1] == rows[i];
    }
  }

  /** The truthy actor ids of the rows, in row order, duplicates kept. */
  function TruthyActorIds(rows: seq<Notification>): (r: seq<string>)
    ensures forall k :: 0 <= k < |r| ==> r[k] != ""
    ensures forall x :: x in r <==> HasActor(rows, x)
  {
    if rows == [] then []
    else
      var rest := TruthyActorIds(rows[1..]);
      assert forall x :: HasActor(rows, x) <==> HasActor(rows[1..], x) || (x != "" && rows[0].actorId == Some(x)) by {
        forall x ensures HasActor(rows, x) <==> HasActor(rows[1..], x) || (x != "" && rows[0].actorId == Some(x)) {
          HasActorTail(rows, x);
        }
      }
      (if Truthy(rows[0].actorId) then [rows[0].actorId.value] else []) + rest
  }

  /** The ids the actor query asks for: each truthy actor id once. */
  function ActorIds(rows: seq<Notification>): (r: seq<string>)
    ensures Distinct(r)
    ensures forall x :: x in r <==> HasActor(rows, x)
  {
    Dedupe(TruthyActorIds(rows))
  }

  /** `p` occurs in `actors` with no later profile of the same id. */
  predicate LastWithId(actors: seq<Profile>, id: string, p: Profile) {
    exists k :: 0 <= k < |actors| && actors[k] == p && (forall l :: k < l < |actors| ==> actors[l].id != id)
  }

  /** A profile that is last with its id stays last when a profile with
      another id is appended. */
  lemma LastWithIdExtend(actors: seq<Profile>, id: string, p: Profile)
    requires actors != [] && actors[|actors| - 1].id != id
    requires LastWithId(actors[..|actors| - 1], id, p)
    ensures LastWithId(actors, id, p)
  {
    var init := actors[..|actors| - 1];
    var k :| 0 <= k < |init| && init[k] == p && (forall l :: k < l < |init| ==> init[l].id != id);
    assert actors[k] == p;
    forall l | k < l < |actors| ensures actors[l].id != id {
      if l < |init| {
        assert actors[l] == init[l];
      }
    }
  }

  /** `Object.fromEntries(actors.map(a => [a.id, a]))[id]`: the last profile
      with that id wins. */
  function Lookup(actors: seq<Profile>, id: string): (r: Option<Profile>)
    ensures r.None? <==> forall k :: 0 <= k < |actors| ==> actors[k].id != id
    ensures r.Some? ==> r.value.id == id && LastWithId(actors, id, r.value)
  {
    if actors == [] then None
    else if actors[|actors| - 1].id == id then
      assert LastWithId(actors, id, actors[|actors| - 1]);
      Some(actors[|actors| - 1])
    else
      var init := actors[..|actors| - 1];
      var r := Lookup(init, id);
      assert forall k :: 0 <= k < |init| ==> init[k] == actors[k];
      if r.Some? then
        LastWithIdExtend(actors, id, r.value);
        r
      else
        r
  }

  /** The lookup the join uses: empty when no actor query is made, when it
      fails and when it returns null data. */
  function ActorsById(rows: seq<Notification>, actorsReply: Reply<seq<Profile>>): (r: seq<Profile>)
    ensures ActorIds(rows) == [] || !actorsReply.Data? ==> r == []
    ensures ActorIds(rows) != [] && actorsReply.Data? ==> r == actorsReply.value
  {
    if ActorIds(rows) != [] && actorsReply.Data? then actorsReply.value else []
  }

  /** One joined row: the notification with `actor` set from the lookup when
      its actor id is truthy, and left undefined otherwise. */
  function Join(n: Notification, actors: seq<Profile>): (r: Notification)
    ensures r.actor.Some? <==> Truthy(n.actorId) && Lookup(actors, n.actorId.value).Some?
    ensures r.actor.Some? ==> r.actor == Lookup(actors, n.actorId.value)
    ensures r.(actor := n.actor) == n
  {
    n.(actor := if Truthy(n.actorId) then Lookup(actors, n.actorId.value) else None)
  }

  /** `getUserNotifications`, given the notification query's reply and the
      actor query's reply. Returns the notifications and whether the actor
      query was made. */
  function GetUserNotifications(reply: Reply<seq<Notification>>, actorsReply: Reply<seq<Profile>>)
    : (r: (seq<Notification>, bool))
    ensures !reply.Data? ==> r == ([], false)
    ensures reply.Data? ==> r.1 == (ActorIds(reply.value) != [])
    ensures reply.Data? ==>
      && |r.0| == |reply.value|
      && forall i :: 0 <= i < |r.0| ==> r.0[i] == Join(reply.value[i], ActorsById(reply.value, actorsReply))
  {
    if !reply.Data? then ([], false)
    else
      var rows := reply.value;
      var actors := ActorsById(rows, actorsReply);
      (seq(|rows|, i requires 0 <= i < |rows| => Join(rows[i], actors)), ActorIds(rows) != [])
  }

  /** A failed actor query still returns every notification, in order and
      unchanged apart from having no actor. */
  lemma ActorFailureKeepsNotifications(rows: seq<Notification>, message: string)
    ensures var r := GetUserNotifications(Data(rows), Failure(message)).0;
      |r| == |rows| && forall i :: 0 <= i < |r| ==> r[i] == rows[i].(actor := None)
  {
  }

  /** Every actor the join attaches is the profile of that row's actor. */
  lemma JoinedActorsMatch(reply: Reply<seq<Notification>>, actorsReply: Reply<seq<Profile>>)
    ensures var r := GetUserNotifications(reply, actorsReply).0;
      forall i :: 0 <= i < |r| && r[i].actor.Some? ==> Some(r[i].actor.value.id) == r[i].actorId
  {
  }

  /** `createNotification`: one row with the given fields, missing ids as
      null. The insert's failure is logged and swallowed, so the caller
      always goes on; `insertOk` says whether the row was written. */
  function CreateNotification(log: seq<NewNotification>, n: NewNotification, insertOk: bool): (r: seq<NewNotification>)
    ensures insertOk ==> r == log + [n]
    ensures !insertOk ==> r == log
  {
    if insertOk then log + [n] else log
  }
}

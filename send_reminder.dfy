/**
 * The reminder edge function: on a scheduled call it picks the push
 * subscriptions of the profiles whose reminder time is the current local time;
 * on a manual call it takes every subscription, or one user's. It sends each a
 * notification and deletes the subscriptions the push service reports as gone.
 */
module SendReminder {
  import opened Prelude

  // ---------------------------------------------------------------- request and tables

  /** The fields the function reads from the JSON body. */
  datatype Body = Body(
    userId: Option<string>,
    title: Option<string>,
    text: Option<string>,
    url: Option<string>,
    cronTrigger: bool)

  /** `{}`: what a body that is not JSON is taken to be. */
  const EmptyBody := Body(None, None, None, None, false)

  /** The body as read: `None` stands for a body that fails to parse. */
  function ParsedBody(body: Option<Body>): (b: Body)
    ensures body.None? ==> b == EmptyBody
    ensures body.Some? ==> b == body.value
  {
    body.GetOr(EmptyBody)
  }

  /** A row of `profiles` with its joined `push_subscriptions`, which may be missing. */
  datatype Profile = Profile(
    id: string,
    reminderHour: Option<int>,
    reminderMinute: Option<int>,
    timezone: Option<string>,
    pushSubscriptions: Option<seq<string>>)

  /** A row of `push_subscriptions`. */
  datatype SubscriptionRow = SubscriptionRow(userId: string, subscription: string)

  /** JavaScript's `value || fallback` on an optional string: absent and empty both fall back. */
  function Or(value: Option<string>, fallback: string): (r: string)
    ensures value.Some? && value.value != [] ==> r == value.value
    ensures value.None? || value.value == [] ==> r == fallback
  {
    if value.Some? && value.value != [] then value.value else fallback
  }

  // ---------------------------------------------------------------- scheduled selection

  /** The time zone used for profiles that have none. */
  const DefaultTimezone := "America/Sao_Paulo"

  /** The time zone a profile's local time is read in. */
  function Zone(p: Profile): string {
    Or(p.timezone, DefaultTimezone)
  }

  /**
   * A profile is due when the local (hour, minute) in its time zone equals its
   * reminder time. `clock` gives the current local time in a zone, `None` when
   * the zone name is invalid, in which case the profile is passed over.
   */
  predicate Due(p: Profile, clock: string -> Option<(int, int)>) {
    var now := clock(Zone(p));
    now.Some? && p.reminderHour == Some(now.value.0) && p.reminderMinute == Some(now.value.1)
  }

  /** `.not('reminder_hour', 'is', null)`: the profiles that have a reminder hour. */
  function WithReminder(profiles: seq<Profile>): (r: seq<Profile>)
    ensures forall p :: p in r <==> p in profiles && p.reminderHour.Some?
    decreases |profiles|
  {
    if profiles == [] then []
    else (if profiles[0].reminderHour.Some? then [profiles[0]] else []) + WithReminder(profiles[1..])
  }

  /** The subscriptions of a profile, none when the join is missing. */
  function SubscriptionsOf(p: Profile): seq<string> {
    p.pushSubscriptions.GetOr([])
  }

  /** `filter(...).flatMap(...)`: the due profiles' subscriptions, one profile after another. */
  function DueSubscriptions(profiles: seq<Profile>, clock: string -> Option<(int, int)>): (r: seq<string>)
    ensures forall s :: s in r <==> exists p :: p in profiles && Due(p, clock) && s in SubscriptionsOf(p)
    decreases |profiles|
  {
    if profiles == [] then []
    else
      var rest := DueSubscriptions(profiles[1..], clock);
      assert forall p :: p in profiles[1..] ==> p in profiles;
      assert forall p :: p in profiles ==> p == profiles[0] || p in profiles[1..];
      (if Due(profiles[0], clock) then SubscriptionsOf(profiles[0]) else []) + rest
  }

  /** The subscriptions keep the order of the profiles: a concatenation selects piecewise. */
  lemma {:induction false} DueSubscriptionsAppend(a: seq<Profile>, b: seq<Profile>, clock: string -> Option<(int, int)>)
    ensures DueSubscriptions(a + b, clock) == DueSubscriptions(a, clock) + DueSubscriptions(b, clock)
    decreases |a|
  {
    if a == [] {
      assert a + b == b;
    } else {
      assert (a + b)[1..] == a[1..] + b;
      DueSubscriptionsAppend(a[1..], b, clock);
    }
  }

  /**
   * A profile that is not due (its time differs, its zone is invalid, or it has
   * no reminder minute) adds nothing, and the profiles after it are still served.
   */
  lemma NotDueSkipped(a: seq<Profile>, p: Profile, b: seq<Profile>, clock: string -> Option<(int, int)>)
    requires !Due(p, clock)
    ensures DueSubscriptions(a + [p] + b, clock) == DueSubscriptions(a, clock) + DueSubscriptions(b, clock)
  {
    DueSubscriptionsAppend(a + [p], b, clock);
    DueSubscriptionsAppend(a, [p], clock);
    NotDueAlone(p, clock);
  }

  /** A profile that is not due selects nothing. */
  lemma NotDueAlone(p: Profile, clock: string -> Option<(int, int)>)
    requires !Due(p, clock)
    ensures DueSubscriptions([p], clock) == []
  {
    assert [p][1..] == [];
    assert DueSubscriptions([p], clock) == [] + DueSubscriptions([], clock);
  }

  // ---------------------------------------------------------------- manual selection

  /** The manual query: every subscription, or only those of `userId` when one is given. */
  function ManualSubscriptions(rows: seq<SubscriptionRow>, userId: Option<string>): (r: seq<string>)
    ensures |r| <= |rows|
    ensures Or(userId, "") == [] ==> |r| == |rows|
    ensures forall s :: s in r <==> exists i :: 0 <= i < |rows| && rows[i].subscription == s
                                               && (Or(userId, "") == [] || rows[i].userId == userId.value)
    decreases |rows|
  {
    if rows == [] then []
    else
      var rest := ManualSubscriptions(rows[1..], userId);
      var keep := Or(userId, "") == [] || rows[0].userId == userId.value;
      assert forall i :: 1 <= i < |rows| ==> rows[i] == rows[1..][i - 1];
      (if keep then [rows[0].subscription] else []) + rest
  }

  /**
   * The subscriptions a call selects, or the error of the query that fails:
   * the scheduled selection when the body says so, the manual one otherwise.
   */
  function Selected(b: Body, profiles: Result<seq<Profile>>, rows: Result<seq<SubscriptionRow>>,
                    clock: string -> Option<(int, int)>): (r: Result<seq<string>>)
    ensures b.cronTrigger ==> (r.Failure? <==> profiles.Failure?)
    ensures !b.cronTrigger ==> (r.Failure? <==> rows.Failure?)
    ensures r.Failure? ==> r.error == if b.cronTrigger then profiles.error else rows.error
    ensures b.cronTrigger && r.Success? ==> r.value == DueSubscriptions(WithReminder(profiles.value), clock)
    ensures b.cronTrigger && r.Success? ==>
              forall s :: s in r.value <==>
                exists p :: p in profiles.value && p.reminderHour.Some? && Due(p, clock) && s in SubscriptionsOf(p)
    ensures !b.cronTrigger && r.Success? ==> r.value == ManualSubscriptions(rows.value, b.userId)
  {
    if b.cronTrigger then
      if profiles.Failure? then Failure(profiles.error)
      else Success(DueSubscriptions(WithReminder(profiles.value), clock))
    else if rows.Failure? then Failure(rows.error)
    else Success(ManualSubscriptions(rows.value, b.userId))
  }

  /** A body that is not JSON makes a manual call for every subscription. */
  lemma UnparsableBodyNotifiesEveryone(profiles: Result<seq<Profile>>, rows: seq<SubscriptionRow>,
                                       clock: string -> Option<(int, int)>)
    ensures var r := Selected(ParsedBody(None), profiles, Success(rows), clock);
            r.Success? && |r.value| == |rows| && forall i :: 0 <= i < |rows| ==> rows[i].subscription in r.value
  {
    var r := ManualSubscriptions(rows, None);
    forall i | 0 <= i < |rows|
      ensures rows[i].subscription in r
    {
    }
  }

  /** The profiles without a reminder hour never receive a scheduled notification. */
  lemma NoReminderHourNoNotification(profiles: seq<Profile>, clock: string -> Option<(int, int)>, s: string)
    requires s in DueSubscriptions(WithReminder(profiles), clock)
    ensures exists p :: p in profiles && p.reminderHour.Some? && Due(p, clock) && s in SubscriptionsOf(p)
  {
  }

  // ---------------------------------------------------------------- sending

  /** The notification sent to every selected subscription. */
  datatype Payload = Payload(title: string, body: string, url: string)

  const DefaultTitle := "MemorizaBíblia 🧠"
  const DefaultText := "Hora de praticar! Vamos revisar o versículo de hoje?"
  const DefaultUrl := "/"

  /** The payload: the body's title, text and address, each with its default when absent or empty. */
  function PayloadOf(b: Body): (p: Payload)
    ensures b.title.Some? && b.title.value != [] ==> p.title == b.title.value
    ensures b.title.None? || b.title == Some([]) ==> p.title == DefaultTitle
    ensures b.text.Some? && b.text.value != [] ==> p.body == b.text.value
    ensures b.text.None? || b.text == Some([]) ==> p.body == DefaultText
    ensures b.url.Some? && b.url.value != [] ==> p.url == b.url.value
    ensures b.url.None? || b.url == Some([]) ==> p.url == DefaultUrl
    ensures p.title != [] && p.body != [] && p.url != []
  {
    Payload(Or(b.title, DefaultTitle), Or(b.text, DefaultText), Or(b.url, DefaultUrl))
  }

  /** What the push service answers to one notification. */
  datatype Delivery = Delivered | Undelivered(statusCode: Option<int>, message: string)

  /** The push service reports the subscription gone (status 410 or 404). */
  predicate Expired(d: Delivery) {
    d.Undelivered? && (d.statusCode == Some(410) || d.statusCode == Some(404))
  }

  /** The entry of the response's `results` for one notification. */
  datatype SendResult = Sent | NotSent(error: string, status: Option<int>)

  function ResultOf(d: Delivery): (r: SendResult)
    ensures r.Sent? <==> d.Delivered?
  {
    match d
    case Delivered => Sent
    case Undelivered(code, message) => NotSent(message, code)
  }

  /** The subscriptions to delete: those whose delivery reports them gone, in order. */
  function ExpiredOf(subs: seq<string>, payload: Payload, deliver: (string, Payload) -> Delivery): (r: seq<string>)
    ensures |r| <= |subs|
    ensures forall s :: s in r <==> exists i :: 0 <= i < |subs| && subs[i] == s && Expired(deliver(subs[i], payload))
    decreases |subs|
  {
    if subs == [] then []
    else
      var k := |subs| - 1;
      var front := ExpiredOf(subs[..k], payload, deliver);
      assert forall i :: 0 <= i < k ==> subs[..k][i] == subs[i];
      front + (if Expired(deliver(subs[k], payload)) then [subs[k]] else [])
  }

  /** The response's `results`: one entry per subscription, in order. */
  function ResultsOf(subs: seq<string>, payload: Payload, deliver: (string, Payload) -> Delivery): (r: seq<SendResult>)
    ensures |r| == |subs|
    ensures forall i :: 0 <= i < |subs| ==> (r[i].Sent? <==> deliver(subs[i], payload).Delivered?)
  {
    seq(|subs|, i requires 0 <= i < |subs| => ResultOf(deliver(subs[i], payload)))
  }

  /** The sends of `subscriptions.map(...)`: one result each, and the expired ones deleted. */
  method Notify(subscriptions: seq<string>, payload: Payload, deliver: (string, Payload) -> Delivery)
    returns (results: seq<SendResult>, deleted: seq<string>)
    ensures results == ResultsOf(subscriptions, payload, deliver)
    ensures deleted == ExpiredOf(subscriptions, payload, deliver)
  {
    results := [];
    deleted := [];
    var i := 0;
    while i < |subscriptions|
      invariant 0 <= i <= |subscriptions|
      invariant results == ResultsOf(subscriptions[..i], payload, deliver)
      invariant deleted == ExpiredOf(subscriptions[..i], payload, deliver)
    {
      var delivery := deliver(subscriptions[i], payload);
      results := results + [ResultOf(delivery)];
      assert subscriptions[..i + 1][..i] == subscriptions[..i];
      if Expired(delivery) {
        deleted := deleted + [subscriptions[i]];
      }
      i := i + 1;
    }
    assert subscriptions[..i] == subscriptions;
  }

  // ---------------------------------------------------------------- the handler

  /** The response, with its status: 200 for the first two, 500 for an error. */
  datatype Response =
    | Preflight                                                      // 'ok' with the CORS headers
    | Processed(message: string, count: nat, results: seq<SendResult>)
    | ServerError(error: string)
  {
    function Status(): int {
      if ServerError? then 500 else 200
    }
  }

  const VapidMissing := "VAPID keys are not set in environment variables"
  const CronProcessed := "Cron reminders processed"
  const ManualProcessed := "Notifications processed"

  /**
   * The request handler. The environment's keys, the parsed body, the two query
   * answers, the local clock and the push service are inputs, and so are the
   * outcomes of the two set-up calls that can throw: `createClient` (an empty
   * project URL is refused) and `setVapidDetails` (a malformed key is refused).
   * `deleted` lists the subscriptions removed from the table.
   */
  method Handle(httpMethod: string, clientSetup: Result<()>, vapidPublicKey: string, vapidPrivateKey: string,
                vapidSetup: Result<()>, body: Option<Body>,
                profiles: Result<seq<Profile>>, rows: Result<seq<SubscriptionRow>>,
                clock: string -> Option<(int, int)>, deliver: (string, Payload) -> Delivery)
    returns (response: Response, deleted: seq<string>)
    ensures httpMethod == "OPTIONS" ==> response == Preflight && deleted == []
    ensures httpMethod != "OPTIONS" && clientSetup.Failure? ==>
              response == ServerError(clientSetup.error) && deleted == []
    ensures httpMethod != "OPTIONS" && clientSetup.Success? && (vapidPublicKey == [] || vapidPrivateKey == []) ==>
              response == ServerError(VapidMissing) && deleted == []
    ensures httpMethod != "OPTIONS" && clientSetup.Success? && vapidPublicKey != [] && vapidPrivateKey != []
            && vapidSetup.Failure? ==>
              response == ServerError(vapidSetup.error) && deleted == []
    ensures var selected := Selected(ParsedBody(body), profiles, rows, clock);
            httpMethod != "OPTIONS" && clientSetup.Success? && vapidPublicKey != [] && vapidPrivateKey != []
            && vapidSetup.Success? && selected.Failure? ==>
              response == ServerError(selected.error) && deleted == []
    ensures var b := ParsedBody(body);
            var selected := Selected(b, profiles, rows, clock);
            httpMethod != "OPTIONS" && clientSetup.Success? && vapidPublicKey != [] && vapidPrivateKey != []
            && vapidSetup.Success? && selected.Success? ==>
              && response.Processed?
              && response.message == (if b.cronTrigger then CronProcessed else ManualProcessed)
              && response.count == |selected.value|
              && response.results == ResultsOf(selected.value, PayloadOf(b), deliver)
              && deleted == ExpiredOf(selected.value, PayloadOf(b), deliver)
    ensures response.Status() == 200 <==> !response.ServerError?
  {
    deleted := [];
    if httpMethod == "OPTIONS" {
      return Preflight, [];
    }
    if clientSetup.Failure? {
      return ServerError(clientSetup.error), [];
    }
    if vapidPublicKey == [] || vapidPrivateKey == [] {
      return ServerError(VapidMissing), [];
    }
    if vapidSetup.Failure? {
      return ServerError(vapidSetup.error), [];
    }
    var b := ParsedBody(body);
    var selection := Selected(b, profiles, rows, clock);
    if selection.Failure? {
      return ServerError(selection.error), [];
    }
    var results;
    results, deleted := Notify(selection.value, PayloadOf(b), deliver);
    response := Processed(if b.cronTrigger then CronProcessed else ManualProcessed, |results|, results);
  }
}

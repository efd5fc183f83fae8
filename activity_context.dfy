/**
 * The activity tally provider (context/ActivityContext.js): seconds per
 * activity, the signed-in user's email, the fetch that loads the stored tally
 * when an email becomes known, and the update that adds seconds to one
 * activity and writes the whole record back when an email is known.
 *
 * The activity store is a collaborator: a fetch response is a parameter, and
 * the records written to the store are collected in `posts`.
 */
module ActivityContext {
  import opened Wrappers

  /** The three keys the tally has; the screens report 'walking' and 'upstairs'. */
  datatype Activity = Walking | Running | Upstairs

  datatype Tally = Tally(walking: int, running: int, upstairs: int)

  /** `{ walking: 0, running: 0, upstairs: 0 }`. */
  const InitialTally: Tally := Tally(0, 0, 0)

  /** The seconds recorded for one activity. */
  function TimeOf(t: Tally, a: Activity): int {
    match a
    case Walking => t.walking
    case Running => t.running
    case Upstairs => t.upstairs
  }

  /** The tally with `seconds` added to activity `a` and every other activity kept. */
  function AddTime(t: Tally, a: Activity, seconds: int): (r: Tally)
    ensures TimeOf(r, a) == TimeOf(t, a) + seconds
    ensures forall b :: b != a ==> TimeOf(r, b) == TimeOf(t, b)
    ensures seconds >= 0 ==> forall b :: TimeOf(r, b) >= TimeOf(t, b)
  {
    match a
    case Walking => t.(walking := t.walking + seconds)
    case Running => t.(running := t.running + seconds)
    case Upstairs => t.(upstairs := t.upstairs + seconds)
  }

  /** Two updates of one activity add up; updates of two activities commute. */
  lemma AddTimeAccumulates(t: Tally, a: Activity, b: Activity, s1: int, s2: int)
    ensures AddTime(AddTime(t, a, s1), a, s2) == AddTime(t, a, s1 + s2)
    ensures AddTime(AddTime(t, a, s1), b, s2) == AddTime(AddTime(t, b, s2), a, s1)
  {
  }

  /** An email is known when it is set and not empty (the source tests its truthiness). */
  predicate EmailKnown(email: Option<string>) {
    email.Some? && email.value != ""
  }

  /** A stored field as the response carries it: `None` when missing or falsy. */
  datatype StoredActivity = StoredActivity(walking: Option<int>, running: Option<int>, upstairs: Option<int>)

  /** The response to the fetch: a network error, or a body (`res.data`), absent when falsy. */
  datatype FetchResponse = FetchFailed | FetchOk(data: Option<StoredActivity>)

  /** `value || 0`. */
  function OrZero(v: Option<int>): int {
    if v.Some? then v.value else 0
  }

  function StoredField(d: StoredActivity, a: Activity): Option<int> {
    match a
    case Walking => d.walking
    case Running => d.running
    case Upstairs => d.upstairs
  }

  /** The tally built from a fetched record: every missing or falsy field becomes 0. */
  function FetchedTally(d: StoredActivity): (t: Tally)
    ensures forall a :: TimeOf(t, a) == OrZero(StoredField(d, a))
    ensures forall a :: TimeOf(t, a) == 0 <==> StoredField(d, a).None? || StoredField(d, a).value == 0
  {
    Tally(OrZero(d.walking), OrZero(d.running), OrZero(d.upstairs))
  }

  /** A write of the full record to the activity store of `email`. */
  datatype Post = Post(email: string, record: Tally)

  /** The provider's state. */
  class ActivityProvider {
    var activityTimes: Tally
    var userEmail: Option<string>
    var posts: seq<Post>

    constructor ()
      ensures activityTimes == InitialTally && userEmail == None && posts == []
    {
      activityTimes, userEmail, posts := InitialTally, None, [];
    }

    method SetUserEmail(email: Option<string>)
      modifies this`userEmail
      ensures userEmail == email
    {
      userEmail := email;
    }

    /** fetchData: skipped without an email; applied only when a body arrives. */
    method FetchData(response: FetchResponse) returns (requested: bool)
      modifies this`activityTimes
      ensures requested == EmailKnown(userEmail)
      ensures activityTimes ==
        if requested && response.FetchOk? && response.data.Some? then FetchedTally(response.data.value)
        else old(activityTimes)
    {
      if !EmailKnown(userEmail) {
        return false;
      }
      requested := true;
      match response
      case FetchFailed =>
      case FetchOk(data) =>
        if data.Some? {
          activityTimes := FetchedTally(data.value);
        }
    }

    /** updateActivityTime(type, seconds): a local update, written back only when an email is known. */
    method UpdateActivityTime(a: Activity, seconds: int)
      modifies this`activityTimes, this`posts
      ensures activityTimes == AddTime(old(activityTimes), a, seconds)
      ensures posts == if EmailKnown(userEmail) then old(posts) + [Post(userEmail.value, activityTimes)] else old(posts)
    {
      var updated := AddTime(activityTimes, a, seconds);
      if EmailKnown(userEmail) {
        posts := posts + [Post(userEmail.value, updated)];
      }
      activityTimes := updated;
    }
  }
}

/**
 * The activity store of src/stores/activityStore.ts: a list of activities that only
 * grows at the front, and a view of its first five. The activity record type is not
 * part of this model, so the store is generic in it.
 */
module ActivityStore {
  import opened Slices

  /** How many activities `recentActivities` keeps. */
  const RecentCount: nat := 5

  /** `recentActivities`: the first five activities in list order, with no sorting. */
  function RecentActivities<A>(activities: seq<A>): (r: seq<A>)
    ensures |r| == Min(RecentCount, |activities|)
    ensures r <= activities
  {
    Take(activities, RecentCount)
  }

  /** Right after a push, the pushed activity heads the recent view. */
  lemma PushedActivityLeadsRecent<A>(a: A, activities: seq<A>)
    ensures RecentActivities([a] + activities)[0] == a
  {
  }

  /** After a push the recent view is the pushed activity followed by the old view, cut to five. */
  lemma RecentActivitiesAfterPush<A>(a: A, activities: seq<A>)
    ensures RecentActivities([a] + activities)
         == Take([a] + RecentActivities(activities), RecentCount)
  {
  }

  class Store<A> {
    var activities: seq<A>

    /** A new store holds no activities. */
    constructor ()
      ensures activities == []
    {
      activities := [];
    }

    /** `pushActivity`: the activity goes in front; the earlier ones follow in their order. */
    method PushActivity(activity: A)
      modifies this
      ensures activities == [activity] + old(activities)
      ensures |activities| == |old(activities)| + 1
    {
      activities := [activity] + activities;
    }
  }
}

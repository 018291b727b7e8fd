/**
 `PluginInstance.save`: on the first save a data-source instance gets a new
 feed and a data-step or topology-step instance takes its parent's feed; every
 save fills falsy resource limits from the plugin's minimums. The write to the
 table itself is the map update `db[id := saved.inst]`.
 */
module Saving {
  import opened Results
  import opened Instances
  import Tree

  /**
   How a save fails: `PreviousMissing` is the attribute error of reading
   `previous.feed` with no parent; `FeedRequired` is the NOT NULL violation on
   the feed column when no branch assigned one.
   */
  datatype SaveError = PreviousMissing | FeedRequired

  /** The saved instance together with the feed table after the save. */
  datatype Saved = Saved(inst: Instance, feeds: FeedStore)

  function FirstFreeFrom(used: set<nat>, n: nat): (f: nat)
    ensures f !in used && f >= n
    decreases set k | k in used && k >= n
  {
    if n !in used then n
    else
      var above := set k | k in used && k >= n + 1;
      var atOrAbove := set k | k in used && k >= n;
      assert n in atOrAbove && n !in above && above <= atOrAbove;
      FirstFreeFrom(used, n + 1)
  }

  /** The primary key the database hands to a new feed: one not in use. */
  function FreshFeedId(feeds: FeedStore): (f: FeedId)
    ensures f !in feeds && f >= 1
  {
    FirstFreeFrom(feeds.Keys, 1)
  }

  /** `_save_feed` names the feed after the title, or after the plugin when the title is blank. */
  function FeedName(inst: Instance): string {
    if inst.title != "" then inst.title else inst.plugin.name
  }

  /** The feed-assignment branch of `save`, taken only when no feed is set yet. */
  function AssignFeed(db: Store, feeds: FeedStore, inst: Instance): Result<Saved, SaveError> {
    if inst.feed.Some? then Ok(Saved(inst, feeds))
    else
      match inst.plugin.ptype
      case Fs =>
        var f := FreshFeedId(feeds);
        Ok(Saved(inst.(feed := Some(f)), feeds[f := Feed(FeedName(inst), {inst.owner})]))
      case Ds | Ts =>
        if inst.previous.None? || inst.previous.value !in db then Err(PreviousMissing)
        else Ok(Saved(inst.(feed := db[inst.previous.value].feed), feeds))
      case OtherType => Ok(Saved(inst, feeds))
  }

  /** `PluginInstance.save`. */
  function Save(db: Store, feeds: FeedStore, inst: Instance): (r: Result<Saved, SaveError>)
    // A saved instance always has a feed, and only its feed and limits differ from the input.
    ensures r.Ok? ==> r.value.inst.feed.Some?
    ensures r.Ok? ==>
      r.value.inst == inst.(feed := r.value.inst.feed, limits := SetComputeDefaults(inst.limits, inst.plugin))
    // An existing feed is never reassigned and no feed is created.
    ensures inst.feed.Some? ==> r.Ok? && r.value.inst.feed == inst.feed && r.value.feeds == feeds
    // A data source gets a fresh feed, owned by exactly its owner.
    ensures inst.feed.None? && inst.plugin.ptype == Fs ==>
      && r.Ok?
      && r.value.inst.feed.value !in feeds
      && r.value.feeds == feeds[r.value.inst.feed.value :=
           Feed(if inst.title != "" then inst.title else inst.plugin.name, {inst.owner})]
    // A data or topology step inherits its parent's feed, and fails without a parent.
    ensures inst.feed.None? && (inst.plugin.ptype == Ds || inst.plugin.ptype == Ts) ==>
      && (r.Ok? <==> inst.previous.Some? && inst.previous.value in db
                     && db[inst.previous.value].feed.Some?)
      && (r.Ok? ==> r.value.inst.feed == db[inst.previous.value].feed && r.value.feeds == feeds)
      && (inst.previous.None? ==> r == Err(PreviousMissing))
    // Any other plugin type leaves the feed unset, which the table refuses.
    ensures inst.feed.None? && inst.plugin.ptype == OtherType ==> r == Err(FeedRequired)
  {
    match AssignFeed(db, feeds, inst)
    case Err(e) => Err(e)
    case Ok(s) =>
      var withLimits := s.inst.(limits := SetComputeDefaults(s.inst.limits, s.inst.plugin));
      if withLimits.feed.None? then Err(FeedRequired) else Ok(Saved(withLimits, s.feeds))
  }

  /** Saving an already saved instance again changes nothing. */
  lemma SaveIdempotent(db: Store, feeds: FeedStore, inst: Instance)
    requires Save(db, feeds, inst).Ok?
    ensures var s := Save(db, feeds, inst).value;
      Save(db, s.feeds, s.inst) == Ok(s)
  {
    var s := Save(db, feeds, inst).value;
    SetComputeDefaultsIdempotent(inst.limits, inst.plugin);
  }

  /** Every non-data-source instance belongs to its parent's feed. */
  ghost predicate FeedsFollowParents(db: Store) {
    forall i ::
      (i in db && db[i].plugin.ptype != Fs && db[i].previous.Some? && db[i].previous.value in db) ==>
        db[i].feed == db[db[i].previous.value].feed
  }

  /** So every instance belongs to the feed of its root. */
  lemma {:induction false} FeedOfRoot(db: Store, rank: Id -> nat, id: Id)
    requires Tree.Ranked(db, rank) && id in db
    requires FeedsFollowParents(db)
    requires Tree.RootInstance(db, rank, id).Ok?
    ensures db[id].feed == db[Tree.RootInstance(db, rank, id).value].feed
    decreases rank(id)
  {
    if db[id].plugin.ptype != Fs {
      FeedOfRoot(db, rank, db[id].previous.value);
    }
  }

  /**
   Writing a newly saved instance under a fresh key keeps every instance in its
   parent's feed.
   */
  lemma SaveKeepsFeedsWithParents(db: Store, rank: Id -> nat, feeds: FeedStore, inst: Instance, id: Id)
    requires Tree.Ranked(db, rank) && FeedsFollowParents(db)
    requires id !in db && inst.feed.None?
    requires Save(db, feeds, inst).Ok?
    ensures FeedsFollowParents(db[id := Save(db, feeds, inst).value.inst])
  {
    var saved := Save(db, feeds, inst).value.inst;
    var db' := db[id := saved];
    forall i | i in db' && db'[i].plugin.ptype != Fs && db'[i].previous.Some? &&
      db'[i].previous.value in db'
      ensures db'[i].feed == db'[db'[i].previous.value].feed
    {
      if i == id {
        assert inst.plugin.ptype == Ds || inst.plugin.ptype == Ts;
        assert inst.previous.value in db;
      } else {
        assert db[i].previous.value in db;
      }
    }
  }
}

/**
 Navigation of the instance tree: the walk from an instance up to its data-source
 root, the storage path derived from that walk, and the work-list enumeration
 of descendants through the reverse `next` relation.

 Acyclicity is stated with a ghost rank: every `previous` link leads to a stored
 instance of strictly smaller rank. That implies every chain of previous links
 is finite (it also rules out a `previous` naming no stored instance), and it is
 the measure that makes the source's walks stop.
 */
module Tree {
  import opened Results
  import opened Instances
  import Decimal

  /** Every `previous` link names a stored instance of smaller rank. */
  ghost predicate Ranked(db: Store, rank: Id -> nat) {
    forall i :: i in db && db[i].previous.Some? ==>
      db[i].previous.value in db && rank(db[i].previous.value) < rank(i)
  }

  /** Every instance that is not a data source has a parent. */
  ghost predicate Rooted(db: Store) {
    forall i :: i in db && db[i].plugin.ptype != Fs ==> db[i].previous.Some?
  }

  /** A data-source instance never has a parent. */
  ghost predicate SourcesAreTops(db: Store) {
    forall i :: i in db && db[i].plugin.ptype == Fs ==> db[i].previous.None?
  }

  /** A well-formed execution forest. */
  ghost predicate WellFormed(db: Store, rank: Id -> nat) {
    Ranked(db, rank) && Rooted(db) && SourcesAreTops(db)
  }

  /**
   The full chain of `previous` links from `id` upward, `id` first; it stops at
   the first instance without a parent, whatever its plugin type.
   */
  ghost function Lineage(db: Store, rank: Id -> nat, id: Id): (line: seq<Id>)
    requires Ranked(db, rank) && id in db
    ensures |line| >= 1 && line[0] == id
    ensures forall k :: 0 <= k < |line| ==> line[k] in db
    decreases rank(id)
  {
    match db[id].previous
    case None => [id]
    case Some(p) => [id] + Lineage(db, rank, p)
  }

  /** `d` descends from `a` (or is `a`) when `a` lies on the lineage of `d`. */
  ghost predicate DescendsFrom(db: Store, rank: Id -> nat, d: Id, a: Id)
    requires Ranked(db, rank)
  {
    d in db && a in Lineage(db, rank, d)
  }

  /**
   The errors a walk meets: `MissingPrevious` is the attribute error of reading
   `None.plugin` past an instance with no parent; `MissingFeed` is the root's
   unset `feed` read while building the path, which the ORM raises as a missing
   related object.
   */
  datatype TreeError = MissingPrevious(at: Id) | MissingFeed(at: Id)

  /**
   `c` is the path the root walk takes from `id`: it starts at `id`, follows
   `previous` at every non-data-source instance and stops at the first data source.
   */
  ghost predicate IsRootPath(db: Store, c: seq<Id>, id: Id) {
    && |c| >= 1
    && c[0] == id
    && (forall k :: 0 <= k < |c| ==> c[k] in db)
    && db[c[|c| - 1]].plugin.ptype == Fs
    && (forall k :: 0 <= k < |c| - 1 ==>
          db[c[k]].plugin.ptype != Fs && db[c[k]].previous == Some(c[k + 1]))
  }

  /**
   The loop of `get_root_instance` and `get_output_path`: walk `previous` until
   a data-source instance, recording each instance visited.
   */
  function RootChain(db: Store, ghost rank: Id -> nat, id: Id): (r: Result<seq<Id>, TreeError>)
    requires Ranked(db, rank) && id in db
    ensures r.Ok? ==> IsRootPath(db, r.value, id)
    ensures r.Err? ==>
      && r.error.MissingPrevious?
      && r.error.at in Lineage(db, rank, id)
      && db[r.error.at].plugin.ptype != Fs
      && db[r.error.at].previous.None?
    ensures Rooted(db) ==> r.Ok?
    decreases rank(id)
  {
    if db[id].plugin.ptype == Fs then Ok([id])
    else
      match db[id].previous
      case None => Err(MissingPrevious(id))
      case Some(p) =>
        match RootChain(db, rank, p)
        case Ok(c) => Ok([id] + c)
        case Err(e) => Err(e)
  }

  /** The root walk is the only path with its shape: `IsRootPath` pins it down. */
  lemma {:induction false} RootPathUnique(db: Store, rank: Id -> nat, c: seq<Id>, id: Id)
    requires Ranked(db, rank) && id in db
    requires IsRootPath(db, c, id)
    ensures RootChain(db, rank, id) == Ok(c)
    decreases rank(id)
  {
    if |c| == 1 {
      assert c == [id];
    } else {
      var p := c[1];
      assert db[id].plugin.ptype != Fs && db[id].previous == Some(p);
      assert IsRootPath(db, c[1..], p);
      RootPathUnique(db, rank, c[1..], p);
      assert c == [id] + c[1..];
    }
  }

  /** The root walk is a prefix of the lineage. */
  lemma {:induction false} RootPathInLineage(db: Store, rank: Id -> nat, c: seq<Id>, id: Id)
    requires Ranked(db, rank) && id in db
    requires IsRootPath(db, c, id)
    ensures |c| <= |Lineage(db, rank, id)|
    ensures c == Lineage(db, rank, id)[..|c|]
    decreases rank(id)
  {
    if |c| > 1 {
      assert IsRootPath(db, c[1..], c[1]);
      RootPathInLineage(db, rank, c[1..], c[1]);
    }
  }

  /** `get_root_instance`. */
  function RootInstance(db: Store, ghost rank: Id -> nat, id: Id): (r: Result<Id, TreeError>)
    requires Ranked(db, rank) && id in db
    ensures r.Ok? ==> r.value in db && db[r.value].plugin.ptype == Fs
    ensures db[id].plugin.ptype == Fs ==> r == Ok(id)
    ensures Rooted(db) ==> r.Ok?
  {
    match RootChain(db, rank, id)
    case Ok(c) => Ok(c[|c| - 1])
    case Err(e) => Err(e)
  }

  /**
   The root is reached from `id` by following `previous` zero or more times,
   and it is the first data source met on the way.
   */
  lemma RootIsFirstSourceAncestor(db: Store, rank: Id -> nat, id: Id)
    requires Ranked(db, rank) && id in db
    requires RootInstance(db, rank, id).Ok?
    ensures var root := RootInstance(db, rank, id).value;
      var line := Lineage(db, rank, id);
      exists k :: 0 <= k < |line| && line[k] == root &&
        forall j :: 0 <= j < k ==> db[line[j]].plugin.ptype != Fs
  {
    var c := RootChain(db, rank, id).value;
    RootPathInLineage(db, rank, c, id);
    var line := Lineage(db, rank, id);
    var k := |c| - 1;
    assert line[k] == c[k];
    forall j | 0 <= j < k
      ensures db[line[j]].plugin.ptype != Fs
    {
      assert line[j] == c[j];
    }
  }

  /** Taking the root of a root changes nothing. */
  lemma RootInstanceIdempotent(db: Store, rank: Id -> nat, id: Id)
    requires Ranked(db, rank) && id in db
    requires RootInstance(db, rank, id).Ok?
    ensures RootInstance(db, rank, RootInstance(db, rank, id).value) == RootInstance(db, rank, id)
  {
  }

  /** In a well-formed forest the root walk runs the whole lineage. */
  lemma {:induction false} RootChainIsLineage(db: Store, rank: Id -> nat, id: Id)
    requires WellFormed(db, rank) && id in db
    ensures RootChain(db, rank, id) == Ok(Lineage(db, rank, id))
    decreases rank(id)
  {
    if db[id].plugin.ptype != Fs {
      RootChainIsLineage(db, rank, db[id].previous.value);
    }
  }

  /** Following the lineage of a descendant eventually follows the ancestor's. */
  lemma {:induction false} LineageLastShared(db: Store, rank: Id -> nat, d: Id, a: Id)
    requires Ranked(db, rank) && DescendsFrom(db, rank, d, a)
    ensures a in db
    ensures var ld := Lineage(db, rank, d); var la := Lineage(db, rank, a);
      ld[|ld| - 1] == la[|la| - 1]
    decreases rank(d)
  {
    if d != a {
      var p := db[d].previous.value;
      LineageLastShared(db, rank, p, a);
    }
  }

  /** Every descendant of an instance has the same root as the instance. */
  lemma DescendantsShareRoot(db: Store, rank: Id -> nat, d: Id, a: Id)
    requires WellFormed(db, rank) && DescendsFrom(db, rank, d, a)
    ensures a in db
    ensures RootInstance(db, rank, d) == RootInstance(db, rank, a)
  {
    LineageLastShared(db, rank, d, a);
    RootChainIsLineage(db, rank, d);
    RootChainIsLineage(db, rank, a);
  }

  // ---------------------------------------------------------------------------
  // Output path

  /** The path segment `/{plugin name}_{id}` of one instance. */
  function Segment(db: Store, i: Id): string
    requires i in db
  {
    "/" + db[i].plugin.name + "_" + Decimal.NatToString(i)
  }

  /**
   The segments of a leaf-first chain, written root first: each hop of the walk
   prepends its instance's segment.
   */
  function Segments(db: Store, c: seq<Id>): string
    requires forall k :: 0 <= k < |c| ==> c[k] in db
  {
    if |c| == 0 then "" else Segments(db, c[1..]) + Segment(db, c[0])
  }

  /** `feed_{root feed id}` followed by the segments from the root down to `id`. */
  function FeedDir(db: Store, ghost rank: Id -> nat, id: Id): (r: Result<string, TreeError>)
    requires Ranked(db, rank) && id in db
  {
    match RootChain(db, rank, id)
    case Err(e) => Err(e)
    case Ok(c) =>
      var root := c[|c| - 1];
      match db[root].feed
      case None => Err(MissingFeed(root))
      case Some(f) => Ok("feed_" + Decimal.NatToString(f) + Segments(db, c))
  }

  /** The segments of a walk from `c[0]` end with `c[0]`'s own segment. */
  lemma SegmentsEndWith(db: Store, c: seq<Id>)
    requires |c| >= 1 && forall k :: 0 <= k < |c| ==> c[k] in db
    ensures Segments(db, c) == Segments(db, c[1..]) + Segment(db, c[0])
  {
  }

  /** A string built as `p + m + q` starts with `p` and ends with `q`. */
  lemma Sandwich(p: string, m: string, q: string)
    ensures |p| + |q| <= |p + m + q|
    ensures (p + m + q)[..|p|] == p
    ensures (p + m + q)[|p + m + q| - |q|..] == q
  {
    var r := p + m + q;
    assert r == p + (m + q);
    assert r == (p + m) + q;
  }

  /** The path text regrouped as owner-and-feed prefix, middle segments, and the last segment with `/data`. */
  lemma PathText(o: string, n: string, s1: string, seg: string)
    ensures o + "/" + ("feed_" + n + (s1 + seg)) + "/data" == (o + "/feed_" + n) + s1 + (seg + "/data")
  {
    assert o + "/" + "feed_" == o + "/feed_";
  }

  /** `get_output_path`: `{username}/feed_{id}/{root}_{id}/…/{name}_{id}/data`. */
  function OutputPath(db: Store, ghost rank: Id -> nat, id: Id): (r: Result<string, TreeError>)
    requires Ranked(db, rank) && id in db
    ensures r.Ok? <==> RootInstance(db, rank, id).Ok? && db[RootInstance(db, rank, id).value].feed.Some?
    ensures r.Ok? ==>
      var prefix := db[id].owner + "/feed_" +
        Decimal.NatToString(db[RootInstance(db, rank, id).value].feed.value);
      var suffix := Segment(db, id) + "/data";
      && |prefix| + |suffix| <= |r.value|
      && r.value[..|prefix|] == prefix
      && r.value[|r.value| - |suffix|..] == suffix
  {
    match FeedDir(db, rank, id)
    case Err(e) => Err(e)
    case Ok(dir) =>
      var c := RootChain(db, rank, id).value;
      var n := Decimal.NatToString(db[c[|c| - 1]].feed.value);
      var o := db[id].owner;
      SegmentsEndWith(db, c);
      PathText(o, n, Segments(db, c[1..]), Segment(db, id));
      Sandwich(o + "/feed_" + n, Segments(db, c[1..]), Segment(db, id) + "/data");
      Ok(o + "/" + dir + "/data")
  }

  /** For a root the path is `{username}/feed_{feed id}/{name}_{id}/data`. */
  lemma OutputPathOfRoot(db: Store, rank: Id -> nat, id: Id)
    requires Ranked(db, rank) && id in db
    requires db[id].plugin.ptype == Fs && db[id].feed.Some?
    ensures OutputPath(db, rank, id) == Ok(db[id].owner + "/feed_" +
      Decimal.NatToString(db[id].feed.value) + "/" + db[id].plugin.name + "_" +
      Decimal.NatToString(id) + "/data")
  {
    assert RootChain(db, rank, id) == Ok([id]);
    assert [id][1..] == [];
    assert Segments(db, [id]) == Segment(db, id);
    var f := Decimal.NatToString(db[id].feed.value);
    var seg := Segment(db, id);
    assert FeedDir(db, rank, id) == Ok("feed_" + f + seg);
    assert OutputPath(db, rank, id) == Ok(db[id].owner + "/" + ("feed_" + f + seg) + "/data");
    var o, n, i := db[id].owner, db[id].plugin.name, Decimal.NatToString(id);
    assert seg == "/" + n + "_" + i;
    assert o + "/" + ("feed_" + f + seg) + "/data" == o + "/feed_" + f + "/" + n + "_" + i + "/data";
  }

  /**
   A child's directory nests in its parent's: the child's feed directory is the
   parent's with the child's own segment appended.
   */
  lemma FeedDirNests(db: Store, rank: Id -> nat, c: Id)
    requires Ranked(db, rank) && c in db
    requires db[c].plugin.ptype != Fs && db[c].previous.Some?
    ensures var p := db[c].previous.value;
      match FeedDir(db, rank, p)
      case Ok(dir) => FeedDir(db, rank, c) == Ok(dir + Segment(db, c))
      case Err(e) => FeedDir(db, rank, c) == Err(e)
  {
    var p := db[c].previous.value;
    match RootChain(db, rank, p)
    case Err(e) =>
    case Ok(cp) =>
      var cc := [c] + cp;
      assert RootChain(db, rank, c) == Ok(cc);
      assert cc[1..] == cp;
      assert cc[|cc| - 1] == cp[|cp| - 1];
      assert Segments(db, cc) == Segments(db, cp) + Segment(db, c);
      var root := cp[|cp| - 1];
      match db[root].feed {
        case None =>
        case Some(f) =>
          var pre := "feed_" + Decimal.NatToString(f);
          assert FeedDir(db, rank, p) == Ok(pre + Segments(db, cp));
          assert FeedDir(db, rank, c) == Ok(pre + Segments(db, cc));
          assert pre + Segments(db, cc) == (pre + Segments(db, cp)) + Segment(db, c);
      }
  }

  /**
   For the same owner, the child's output path is the parent's with the trailing
   `/data` replaced by `/{name}_{id}/data`: the parent's output directory is
   an ancestor directory of the child's.
   */
  lemma OutputPathNests(db: Store, rank: Id -> nat, c: Id)
    requires Ranked(db, rank) && c in db
    requires db[c].plugin.ptype != Fs && db[c].previous.Some?
    requires db[db[c].previous.value].owner == db[c].owner
    requires OutputPath(db, rank, db[c].previous.value).Ok?
    ensures var parent := OutputPath(db, rank, db[c].previous.value).value;
      && |parent| >= 5
      && OutputPath(db, rank, c) == Ok(parent[..|parent| - 5] + Segment(db, c) + "/data")
  {
    FeedDirNests(db, rank, c);
    var p := db[c].previous.value;
    var o, dir, seg := db[c].owner, FeedDir(db, rank, p).value, Segment(db, c);
    assert OutputPath(db, rank, p) == Ok(o + "/" + dir + "/data");
    assert OutputPath(db, rank, c) == Ok(o + "/" + (dir + seg) + "/data");
    ReplaceData(o, dir, seg);
  }

  /** Dropping the trailing `/data` of a path and appending a segment and `/data`. */
  lemma ReplaceData(o: string, dir: string, seg: string)
    ensures var parent := o + "/" + dir + "/data";
      && |parent| >= 5
      && parent[..|parent| - 5] + seg + "/data" == o + "/" + (dir + seg) + "/data"
  {
    var parent := o + "/" + dir + "/data";
    assert parent == (o + "/" + dir) + "/data";
    assert parent[..|parent| - 5] == o + "/" + dir;
  }

  // ---------------------------------------------------------------------------
  // Descendants

  /** The instances whose `previous` is `v`: the `next` relation of `v`. */
  function Next(db: Store, v: Id): set<Id> {
    set c | c in db && db[c].previous == Some(v)
  }

  /** Everything that descends from `a`, `a` included. */
  ghost function DescendantSet(db: Store, rank: Id -> nat, a: Id): set<Id>
    requires Ranked(db, rank)
  {
    set d | d in db && a in Lineage(db, rank, d)
  }

  predicate Distinct(s: seq<Id>) {
    forall i, j :: 0 <= i < j < |s| ==> s[i] != s[j]
  }

  lemma DistinctConcat(s: seq<Id>, t: seq<Id>)
    requires Distinct(s) && Distinct(t)
    requires forall x :: x in s ==> x !in t
    ensures Distinct(s + t)
  {
    forall i, j | 0 <= i < j < |s + t|
      ensures (s + t)[i] != (s + t)[j]
    {
      if j < |s| {
      } else if i >= |s| {
        assert (s + t)[i] == t[i - |s|] && (s + t)[j] == t[j - |s|];
      } else {
        assert (s + t)[i] == s[i] && (s + t)[j] == t[j - |s|];
        assert s[i] in s && t[j - |s|] in t;
      }
    }
  }

  /** An ancestor never has larger rank than its descendant. */
  lemma {:induction false} LineageRank(db: Store, rank: Id -> nat, d: Id, a: Id)
    requires Ranked(db, rank) && d in db && a in Lineage(db, rank, d)
    ensures rank(a) <= rank(d)
    decreases rank(d)
  {
    if a != d {
      LineageRank(db, rank, db[d].previous.value, a);
    }
  }

  /** A set containing `a` and closed under `next` holds every descendant of `a`. */
  lemma {:induction false} ClosedSetHoldsDescendants(db: Store, rank: Id -> nat, s: set<Id>, a: Id, d: Id)
    requires Ranked(db, rank) && a in s
    requires forall c :: c in db && db[c].previous.Some? && db[c].previous.value in s ==> c in s
    requires DescendsFrom(db, rank, d, a)
    ensures d in s
    decreases rank(d)
  {
    if d != a {
      ClosedSetHoldsDescendants(db, rank, s, a, db[d].previous.value);
    }
  }

  /** The children of `v` in some order (the ORM's order is not modelled). */
  method ListNext(db: Store, v: Id) returns (kids: seq<Id>)
    ensures Distinct(kids)
    ensures forall c :: c in kids <==> c in Next(db, v)
  {
    var rest := Next(db, v);
    kids := [];
    while rest != {}
      invariant Distinct(kids)
      invariant forall c :: c in kids ==> c !in rest
      invariant forall c :: c in kids || c in rest <==> c in Next(db, v)
      decreases rest
    {
      var c :| c in rest;
      kids := kids + [c];
      rest := rest - {c};
    }
  }

  /**
   `get_descendant_instances`: pop the last queued instance, queue its `next`
   instances, record it. Each descendant appears exactly once, `a` first.
   */
  method DescendantInstances(db: Store, ghost rank: Id -> nat, a: Id) returns (r: seq<Id>)
    requires Ranked(db, rank) && a in db
    ensures |r| >= 1 && r[0] == a
    ensures Distinct(r)
    ensures forall d :: d in r <==> d in DescendantSet(db, rank, a)
  {
    var out: seq<Id> := [];
    var queue: seq<Id> := [a];
    ghost var seen: set<Id> := {};
    while |queue| > 0
      invariant seen == set x | x in out
      invariant seen <= db.Keys
      invariant Distinct(out) && Distinct(queue)
      invariant forall x :: x in out ==> x !in queue
      invariant forall x :: x in out || x in queue ==> x in db && a in Lineage(db, rank, x)
      invariant forall x :: x in out || x in queue ==>
        x == a || (db[x].previous.Some? && db[x].previous.value in out)
      invariant forall c :: c in db && db[c].previous.Some? && db[c].previous.value in out ==>
        c in out || c in queue
      invariant a in out || a in queue
      invariant |out| >= 1 ==> out[0] == a
      invariant |out| == 0 ==> queue == [a]
      decreases db.Keys - seen
    {
      var v := queue[|queue| - 1];
      var kids := ListNext(db, v);
      NextIsFresh(db, rank, a, v, out, queue, kids);
      DistinctConcat(queue[..|queue| - 1], kids);
      queue := queue[..|queue| - 1] + kids;
      out := out + [v];
      seen := seen + {v};
    }
    r := out;
    forall d | d in DescendantSet(db, rank, a)
      ensures d in r
    {
      ClosedSetHoldsDescendants(db, rank, seen, a, d);
    }
  }

  /**
   The step of the work-list: the children of the popped instance are new to
   both the output and the queue, and they descend from `a`.
   */
  lemma NextIsFresh(db: Store, rank: Id -> nat, a: Id, v: Id, out: seq<Id>, queue: seq<Id>, kids: seq<Id>)
    requires Ranked(db, rank) && a in db
    requires |queue| >= 1 && v == queue[|queue| - 1]
    requires Distinct(queue)
    requires forall x :: x in out ==> x !in queue
    requires forall x :: x in out || x in queue ==> x in db && a in Lineage(db, rank, x)
    requires forall x :: x in out || x in queue ==>
      x == a || (db[x].previous.Some? && db[x].previous.value in out)
    requires forall c :: c in kids <==> c in Next(db, v)
    ensures forall c :: c in kids ==> c !in out && c !in queue
    ensures forall c :: c in kids ==> c in db && a in Lineage(db, rank, c)
  {
    forall c | c in kids
      ensures c !in out && c !in queue
      ensures c in db && a in Lineage(db, rank, c)
    {
      assert db[c].previous == Some(v);
      assert Lineage(db, rank, c) == [c] + Lineage(db, rank, v);
      if c in out || c in queue {
        // v is still queued, so not in `out`; hence c must be `a` itself,
        // which would make `a` a proper descendant of itself.
        assert c == a;
        LineageRank(db, rank, v, a);
        assert false;
      }
    }
  }

  /**
   `PluginInstanceFilter.filter_by_root_id`: nothing when the id is not in the
   query set; otherwise every descendant of that instance, found through `next`
   over the whole table and not only the query set.
   */
  method FilterByRootId(db: Store, ghost rank: Id -> nat, queryset: set<Id>, value: Id)
    returns (r: seq<Id>)
    requires Ranked(db, rank) && queryset <= db.Keys
    ensures value !in queryset ==> r == []
    ensures value in queryset ==> |r| >= 1 && r[0] == value
    ensures Distinct(r)
    ensures value in queryset ==> forall d :: d in r <==> d in DescendantSet(db, rank, value)
  {
    if value !in queryset {
      return [];
    }
    r := DescendantInstances(db, rank, value);
  }

  // ---------------------------------------------------------------------------
  // A worked example: a `dircopy` root with id 1 and feed 1 owned by `alice`,
  // and a `simpledsapp` child with id 2.

  function ExampleStore(limits: Limits): Store {
    map[1 := Instance("", Created, None, Plugin("dircopy", Fs, 1000, 200, 1, 0), Some(1), "alice", limits),
        2 := Instance("", Created, Some(1), Plugin("simpledsapp", Ds, 1000, 200, 1, 0), Some(1), "alice", limits)]
  }

  lemma ExampleRanked(limits: Limits)
    ensures Ranked(ExampleStore(limits), x => x)
  {
  }

  /** The root's path text, assembled one concatenation at a time. */
  lemma ExampleRootText()
    ensures "alice" + "/feed_" + "1" + "/" + "dircopy" + "_" + "1" + "/data" == "alice/feed_1/dircopy_1/data"
  {
    assert "alice" + "/feed_" == "alice/feed_";
    assert "alice/feed_" + "1" == "alice/feed_1";
    assert "alice/feed_1" + "/" == "alice/feed_1/";
    assert "alice/feed_1/" + "dircopy" == "alice/feed_1/dircopy";
    assert "alice/feed_1/dircopy" + "_" == "alice/feed_1/dircopy_";
    assert "alice/feed_1/dircopy_" + "1" == "alice/feed_1/dircopy_1";
    assert "alice/feed_1/dircopy_1" + "/data" == "alice/feed_1/dircopy_1/data";
  }

  lemma ExampleRootPath(limits: Limits)
    ensures Ranked(ExampleStore(limits), x => x)
    ensures OutputPath(ExampleStore(limits), x => x, 1) == Ok("alice/feed_1/dircopy_1/data")
  {
    var db, rank: Id -> nat := ExampleStore(limits), x => x;
    ExampleRanked(limits);
    var root := db[1];
    assert root.plugin.ptype == Fs && root.feed == Some(1);
    assert root.owner == "alice" && root.plugin.name == "dircopy";
    OutputPathOfRoot(db, rank, 1);
    Decimal.SmallNatToString();
    ExampleRootText();
  }

  /** The child's path text: the root's directory, the child's segment, then `/data`. */
  lemma ExampleChildText()
    ensures var parent := "alice/feed_1/dircopy_1/data";
      && |parent| >= 5
      && parent[..|parent| - 5] + ("/" + "simpledsapp" + "_" + "2") + "/data"
         == "alice/feed_1/dircopy_1/simpledsapp_2/data"
  {
    var parent := "alice/feed_1/dircopy_1/data";
    assert parent[..|parent| - 5] == "alice/feed_1/dircopy_1";
    assert "/" + "simpledsapp" == "/simpledsapp";
    assert "/simpledsapp" + "_" == "/simpledsapp_";
    assert "/simpledsapp_" + "2" == "/simpledsapp_2";
    assert "alice/feed_1/dircopy_1" + "/simpledsapp_2" == "alice/feed_1/dircopy_1/simpledsapp_2";
    assert "alice/feed_1/dircopy_1/simpledsapp_2" + "/data" == "alice/feed_1/dircopy_1/simpledsapp_2/data";
  }

  lemma ExampleChildPath(limits: Limits)
    ensures Ranked(ExampleStore(limits), x => x)
    ensures OutputPath(ExampleStore(limits), x => x, 2) == Ok("alice/feed_1/dircopy_1/simpledsapp_2/data")
  {
    var db, rank: Id -> nat := ExampleStore(limits), x => x;
    ExampleRootPath(limits);
    var child := db[2];
    assert child.plugin.ptype == Ds && child.previous == Some(1);
    assert child.owner == db[1].owner && child.plugin.name == "simpledsapp";
    OutputPathNests(db, rank, 2);
    Decimal.SmallNatToString();
    assert Segment(db, 2) == "/" + "simpledsapp" + "_" + "2";
    ExampleChildText();
  }

  lemma ExampleRootAndDescendants(limits: Limits)
    ensures Ranked(ExampleStore(limits), x => x)
    ensures RootInstance(ExampleStore(limits), x => x, 2) == Ok(1)
    ensures DescendantSet(ExampleStore(limits), x => x, 1) == {1, 2}
  {
    var db, rank: Id -> nat := ExampleStore(limits), x => x;
    ExampleRanked(limits);
    assert Lineage(db, rank, 1) == [1];
    assert Lineage(db, rank, 2) == [2, 1];
  }
}

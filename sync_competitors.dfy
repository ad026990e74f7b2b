/**
 * Moving competitor data between the local database and the live site: the export that
 * renumbers competitors 1..N for a fresh database and rewrites the posts' references, and the
 * pull that adds the live site's competitors whose handle is not known locally. The file
 * write, the git push and the HTTP request are left to the caller; the reply and the JSON
 * decoding are inputs.
 */
module SyncCompetitors {
  import opened Common
  import opened Tables
  import opened Store

  // ---------------------------------------------------------------------------------------
  // Export
  // ---------------------------------------------------------------------------------------

  /** The seed file's content: competitors without their keys, and posts. */
  datatype Seed = Seed(competitors: seq<Competitor>, posts: seq<CompetitorPost>)

  /** The keys are pairwise distinct (true of a primary key). */
  ghost predicate IdsDistinct(comps: seq<Row<Competitor>>) {
    forall i, j :: 0 <= i < j < |comps| ==> comps[i].id != comps[j].id
  }

  /** The id map: the key of the k-th competitor (counting from 1) mapped to k. */
  function IdMapOf(comps: seq<Row<Competitor>>): map<int, int> {
    if comps == [] then map[]
    else IdMapOf(comps[..|comps| - 1])[comps[|comps| - 1].id := |comps|]
  }

  /** With distinct keys, the k-th competitor's key maps to k. */
  lemma {:induction false} IdMapPositions(comps: seq<Row<Competitor>>)
    requires IdsDistinct(comps)
    ensures forall k :: 0 <= k < |comps| ==> comps[k].id in IdMapOf(comps) && IdMapOf(comps)[comps[k].id] == k + 1
  {
    if comps != [] {
      var init := comps[..|comps| - 1];
      var last := comps[|comps| - 1];
      assert IdsDistinct(init);
      IdMapPositions(init);
      forall k | 0 <= k < |init|
        ensures comps[k].id in IdMapOf(comps) && IdMapOf(comps)[comps[k].id] == k + 1
      {
        assert init[k] == comps[k];
        assert comps[k].id != last.id;
      }
    }
  }

  /** Only the competitors' keys are mapped. */
  lemma {:induction false} IdMapDomain(comps: seq<Row<Competitor>>)
    ensures forall x :: x in IdMapOf(comps) ==> exists k :: 0 <= k < |comps| && comps[k].id == x
  {
    if comps != [] {
      var init := comps[..|comps| - 1];
      var last := comps[|comps| - 1];
      IdMapDomain(init);
      forall x | x in IdMapOf(comps) ensures exists k :: 0 <= k < |comps| && comps[k].id == x {
        if x != last.id {
          assert x in IdMapOf(init);
          var k :| 0 <= k < |init| && init[k].id == x;
          assert comps[k].id == x;
        }
      }
    }
  }

  /**
   * With distinct keys, the id map sends the k-th competitor to k, has exactly the
   * competitors' keys as domain and values in 1..N, and is injective.
   */
  lemma IdMapDense(comps: seq<Row<Competitor>>)
    requires IdsDistinct(comps)
    ensures var m := IdMapOf(comps);
      && (forall k :: 0 <= k < |comps| ==> comps[k].id in m && m[comps[k].id] == k + 1)
      && (forall x :: x in m ==> exists k :: 0 <= k < |comps| && comps[k].id == x)
      && (forall x :: x in m ==> 1 <= m[x] <= |comps|)
      && (forall x, y :: x in m && y in m && m[x] == m[y] ==> x == y)
  {
    IdMapPositions(comps);
    IdMapDomain(comps);
    var m := IdMapOf(comps);
    forall x | x in m ensures 1 <= m[x] <= |comps| {
      var k :| 0 <= k < |comps| && comps[k].id == x;
    }
    forall x, y | x in m && y in m && m[x] == m[y] ensures x == y {
      var kx :| 0 <= kx < |comps| && comps[kx].id == x;
      var ky :| 0 <= ky < |comps| && comps[ky].id == y;
    }
  }

  /** Every position 1..N is the image of some key; with IdMapDense, the values are exactly 1..N. */
  lemma IdMapOnto(comps: seq<Row<Competitor>>)
    requires IdsDistinct(comps)
    ensures forall v :: 1 <= v <= |comps| ==> v in IdMapOf(comps).Values
  {
    IdMapDense(comps);
    var m := IdMapOf(comps);
    forall v | 1 <= v <= |comps| ensures v in m.Values {
      assert m[comps[v - 1].id] == v;
    }
  }

  /** The id-map loop. */
  method BuildIdMap(comps: seq<Row<Competitor>>) returns (m: map<int, int>)
    ensures m == IdMapOf(comps)
  {
    m := map[];
    var i := 0;
    while i < |comps|
      invariant 0 <= i <= |comps|
      invariant m == IdMapOf(comps[..i])
    {
      assert comps[..i + 1][..i] == comps[..i];
      m := m[comps[i].id := i + 1];
      i := i + 1;
    }
    assert comps[..i] == comps;
  }

  /** `id_map.get(x, x)`. */
  function MapOr(m: map<int, int>, x: int): int {
    if x in m then m[x] else x
  }

  /** A post with its competitor reference renumbered. */
  function RemapOne(m: map<int, int>, p: CompetitorPost): CompetitorPost {
    p.(competitorId := MapOr(m, p.competitorId))
  }

  /**
   * The in-place rewrite of every post's reference: the posts keep their number and order,
   * every other field is untouched, and a reference the map lacks stays as it was.
   */
  method RemapPosts(posts: array<CompetitorPost>, m: map<int, int>)
    modifies posts
    ensures forall i :: 0 <= i < posts.Length ==> posts[i] == RemapOne(m, old(posts[i]))
  {
    var i := 0;
    while i < posts.Length
      invariant 0 <= i <= posts.Length
      invariant forall k :: 0 <= k < i ==> posts[k] == RemapOne(m, old(posts[k]))
      invariant forall k :: i <= k < posts.Length ==> posts[k] == old(posts[k])
    {
      posts[i] := RemapOne(m, posts[i]);
      i := i + 1;
    }
  }

  /** The records of a table in table order, without their keys. */
  function Vals<R>(rows: seq<Row<R>>): (r: seq<R>)
    ensures |r| == |rows| && forall i :: 0 <= i < |rows| ==> r[i] == rows[i].val
  {
    seq(|rows|, i requires 0 <= i < |rows| => rows[i].val)
  }

  /**
   * `export_to_json`, competitors and posts taken in key order (the table order of a
   * well-formed table).
   */
  function Export(comps: seq<Row<Competitor>>, posts: seq<CompetitorPost>): Seed {
    var m := IdMapOf(comps);
    Seed(Vals(comps), seq(|posts|, i requires 0 <= i < |posts| => RemapOne(m, posts[i])))
  }

  /**
   * The seed is consistent for a fresh database that numbers competitors from 1: the exported
   * competitors are the same records in the same order; every post keeps its position and
   * fields, and a post that pointed at the k-th competitor now points at k, which is that
   * competitor's position in the seed; a post whose competitor is not exported keeps its
   * reference. When every post references an exported competitor, all references lie in 1..N.
   */
  lemma ExportConsistent(comps: seq<Row<Competitor>>, posts: seq<CompetitorPost>)
    requires IdsDistinct(comps)
    ensures var s := Export(comps, posts);
      && |s.competitors| == |comps| && |s.posts| == |posts|
      && (forall k :: 0 <= k < |comps| ==> s.competitors[k] == comps[k].val)
      && (forall i, k :: 0 <= i < |posts| && 0 <= k < |comps| && posts[i].competitorId == comps[k].id ==>
            s.posts[i].competitorId == k + 1 && s.competitors[s.posts[i].competitorId - 1] == comps[k].val)
      && (forall i :: 0 <= i < |posts| && (forall k :: 0 <= k < |comps| ==> posts[i].competitorId != comps[k].id) ==>
            s.posts[i] == posts[i])
      && (forall i :: 0 <= i < |posts| ==> s.posts[i].(competitorId := posts[i].competitorId) == posts[i])
      && ((forall i :: 0 <= i < |posts| ==> exists k :: 0 <= k < |comps| && posts[i].competitorId == comps[k].id) ==>
            forall i :: 0 <= i < |posts| ==> 1 <= s.posts[i].competitorId <= |comps|)
  {
    IdMapDense(comps);
  }

  /** The export on the database: competitors and posts as stored, the posts rewritten in place. */
  method ExportToJson(db: Database) returns (seed: Seed)
    ensures seed == Export(db.competitors.rows, Vals(db.posts.rows))
  {
    var comps := db.competitors.rows;
    var posts := new CompetitorPost[|db.posts.rows|](i requires 0 <= i < |db.posts.rows| reads db => db.posts.rows[i].val);
    var m := BuildIdMap(comps);
    RemapPosts(posts, m);
    seed := Seed(Vals(comps), posts[..]);
  }

  // ---------------------------------------------------------------------------------------
  // Live pull
  // ---------------------------------------------------------------------------------------

  /**
   * The JSON array embedded in a page: from the first `[` through the last `]`. Extraction
   * fails exactly when a bracket is missing; the text is empty when the last `]` comes before
   * the first `[`.
   */
  function ExtractArray(text: string): (r: Option<string>)
    ensures r.None? <==> '[' !in text || ']' !in text
    ensures r.Some? && Find(text, '[') <= RFind(text, ']') ==>
      && r.value == text[Find(text, '[')..RFind(text, ']') + 1]
      && r.value[0] == '[' && r.value[|r.value| - 1] == ']'
      && '[' !in text[..Find(text, '[')] && ']' !in text[RFind(text, ']') + 1..]
    ensures r.Some? && RFind(text, ']') < Find(text, '[') ==> r.value == []
  {
    var start := Find(text, '[');
    var end := RFind(text, ']') + 1;
    if start == -1 || end == 0 then None else Some(Slice(text, start, end))
  }

  /** A field of a decoded JSON object: absent, null, or text. */
  datatype Json = Absent | Null | Text(s: string)

  /** A competitor as the live site lists it. */
  datatype LiveCompetitor = LiveCompetitor(name: Json, handle: Json, platform: Json, profileUrl: Json, notes: Json)

  /** The live site's reply: an HTTP status and body, or no answer. */
  datatype Reply = Reply(status: int, body: string) | NoAnswer

  /** How the pull ends. */
  datatype PullOutcome =
    | NotConfigured      // URL or key unset: nothing requested
    | Unreachable        // request failed, error status, or the array did not decode
    | Unparsable         // no bracket pair in the page
    | Pulled(added: nat) // every live competitor processed
    | Aborted(added: nat) // an insert raised after `added` inserts, which stay

  /** The request URL: the site URL without trailing slashes, then the API query. */
  function PullUrl(siteUrl: string, key: string): string {
    TrimEndChar(siteUrl, '/') + "?api=competitors&key=" + key
  }

  /** `c.get(k)`: null for absent and null fields alike. */
  function Nullable(j: Json): Option<string> {
    if j.Text? then Some(j.s) else None
  }

  function NewCompetitor(c: LiveCompetitor): Competitor
    requires c.name.Text? && c.handle.Text? && c.platform.Text?
  {
    Competitor(c.name.s, c.handle.s, c.platform.s, Nullable(c.profileUrl), Nullable(c.notes))
  }

  /** The competitor handles stored. */
  function Handles(rows: seq<Row<Competitor>>): set<string> {
    set i | 0 <= i < |rows| :: rows[i].val.handle
  }

  /** The pull's tables and progress: `aborted` once an exception has escaped the loop. */
  datatype PullState = PullState(competitors: Table<Competitor>, added: nat, aborted: bool)

  /**
   * One live competitor against the handles read before the loop: skipped when its handle is
   * among them; otherwise inserted, unless a key is missing (KeyError), a NOT NULL column
   * would be null, or the handle is already stored (the UNIQUE constraint), each of which
   * raises.
   */
  function PullStep(s: PullState, local: set<string>, c: LiveCompetitor): PullState {
    if s.aborted then s
    else if c.handle.Absent? then s.(aborted := true)
    else if c.handle.Text? && c.handle.s in local then s
    else if c.name.Absent? || c.platform.Absent? then s.(aborted := true)
    else if !c.name.Text? || !c.handle.Text? || !c.platform.Text? || c.handle.s in Handles(s.competitors.rows) then s.(aborted := true)
    else PullState(Insert(s.competitors, NewCompetitor(c)), s.added + 1, false)
  }

  function PullLoop(s: PullState, local: set<string>, cs: seq<LiveCompetitor>): PullState {
    if cs == [] then s else PullStep(PullLoop(s, local, cs[..|cs| - 1]), local, cs[|cs| - 1])
  }

  /** `pull_from_live`: the tables afterwards and how it ended. */
  function PullRun(siteUrl: string, key: string, get: string -> Reply, decode: string -> Option<seq<LiveCompetitor>>,
                   competitors: Table<Competitor>): (Table<Competitor>, PullOutcome)
  {
    if siteUrl == [] || key == [] then (competitors, NotConfigured)
    else match get(PullUrl(siteUrl, key))
      case NoAnswer => (competitors, Unreachable)
      case Reply(status, body) =>
        if 400 <= status < 600 then (competitors, Unreachable)
        else match ExtractArray(body)
          case None => (competitors, Unparsable)
          case Some(text) =>
            match decode(text)
            case None => (competitors, Unreachable)
            case Some(live) =>
              var s := PullLoop(PullState(competitors, 0, false), Handles(competitors.rows), live);
              (s.competitors, if s.aborted then Aborted(s.added) else Pulled(s.added))
  }

  /** The live competitors the pull inserts: those with a handle not among the local ones, in order. */
  function NewOnes(local: set<string>, cs: seq<LiveCompetitor>): seq<LiveCompetitor> {
    if cs == [] then []
    else NewOnes(local, cs[..|cs| - 1]) + (if cs[|cs| - 1].handle.Text? && cs[|cs| - 1].handle.s in local then [] else [cs[|cs| - 1]])
  }

  /**
   * The loop only appends: existing rows are never modified, `added` counts the rows
   * inserted, and, when nothing raised, the rows inserted are exactly the live competitors
   * whose handle was not among the handles read before the loop, in live order.
   */
  lemma {:induction false} PullLoopAppends(s: PullState, local: set<string>, cs: seq<LiveCompetitor>)
    requires !s.aborted
    ensures var u := PullLoop(s, local, cs);
      && Appended(s.competitors, u.competitors)
      && u.added - s.added == |u.competitors.rows| - |s.competitors.rows|
      && (!u.aborted ==>
            var newOnes := NewOnes(local, cs);
            && |newOnes| == u.added - s.added
            && forall k :: 0 <= k < |newOnes| ==>
                 newOnes[k].name.Text? && newOnes[k].handle.Text? && newOnes[k].platform.Text?
                 && u.competitors.rows[|s.competitors.rows| + k].val == NewCompetitor(newOnes[k]))
  {
    if cs == [] {
      AppendedRefl(s.competitors);
    } else {
      var init := cs[..|cs| - 1];
      var c := cs[|cs| - 1];
      var s0 := PullLoop(s, local, init);
      var u := PullStep(s0, local, c);
      PullLoopAppends(s, local, init);
      if s0.aborted || u == s0 || u.aborted {
        AppendedRefl(s0.competitors);
        if !u.aborted {
          assert !s0.aborted;
          assert NewOnes(local, cs) == NewOnes(local, init);
        }
      } else {
        AppendedInsert(s0.competitors, NewCompetitor(c));
        assert u.competitors.rows[..|s0.competitors.rows|] == s0.competitors.rows;
        var newOnes := NewOnes(local, cs);
        assert newOnes == NewOnes(local, init) + [c];
        forall k | 0 <= k < |newOnes|
          ensures u.competitors.rows[|s.competitors.rows| + k].val == NewCompetitor(newOnes[k])
        {
          if k < |newOnes| - 1 {
            assert u.competitors.rows[|s.competitors.rows| + k] == s0.competitors.rows[|s.competitors.rows| + k];
          }
        }
      }
      AppendedTrans(s.competitors, s0.competitors, u.competitors);
    }
  }

  /**
   * The pull keeps the competitor table's key discipline and its UNIQUE handle constraint: the
   * check against the stored handles is what makes a repeated new handle raise instead of
   * being inserted twice.
   */
  lemma {:induction false} PullLoopKeepsValid(s: PullState, local: set<string>, cs: seq<LiveCompetitor>)
    requires WellFormed(s.competitors) && HandlesUnique(s.competitors)
    ensures WellFormed(PullLoop(s, local, cs).competitors) && HandlesUnique(PullLoop(s, local, cs).competitors)
  {
    if cs != [] {
      var s0 := PullLoop(s, local, cs[..|cs| - 1]);
      PullLoopKeepsValid(s, local, cs[..|cs| - 1]);
      var u := PullStep(s0, local, cs[|cs| - 1]);
      if u.competitors != s0.competitors {
        var t := s0.competitors;
        var c := cs[|cs| - 1];
        assert u.competitors.rows == t.rows + [Row(t.next, NewCompetitor(c))];
        forall i, j | 0 <= i < j < |u.competitors.rows|
          ensures u.competitors.rows[i].val.handle != u.competitors.rows[j].val.handle
        {
          if j == |t.rows| {
            assert t.rows[i].val.handle in Handles(t.rows);
          }
        }
      }
    }
  }

  /**
   * `pull_from_live`'s promises: without a URL or key, or when the page cannot be fetched or
   * parsed, nothing is written; otherwise rows are only appended, the count reported is the
   * number appended, and a run without error inserts exactly the live competitors whose
   * handle was not known locally.
   */
  lemma PullRunPromises(siteUrl: string, key: string, get: string -> Reply,
                        decode: string -> Option<seq<LiveCompetitor>>, competitors: Table<Competitor>)
    ensures var (u, out) := PullRun(siteUrl, key, get, decode, competitors);
      && (out.NotConfigured? || out.Unreachable? || out.Unparsable? ==> u == competitors)
      && (siteUrl == [] || key == [] ==> out.NotConfigured?)
      && Appended(competitors, u)
      && ((out.Pulled? || out.Aborted?) ==> out.added == |u.rows| - |competitors.rows|)
      && (out.Pulled? ==>
            var live := decode(ExtractArray(get(PullUrl(siteUrl, key)).body).value).value;
            var newOnes := NewOnes(Handles(competitors.rows), live);
            && |newOnes| == out.added
            && forall k :: 0 <= k < |newOnes| ==>
                 newOnes[k].name.Text? && newOnes[k].handle.Text? && newOnes[k].platform.Text?
                 && u.rows[|competitors.rows| + k].val == NewCompetitor(newOnes[k]))
  {
    var (u, out) := PullRun(siteUrl, key, get, decode, competitors);
    if out.Pulled? || out.Aborted? {
      var reply := get(PullUrl(siteUrl, key));
      var live := decode(ExtractArray(reply.body).value).value;
      PullLoopAppends(PullState(competitors, 0, false), Handles(competitors.rows), live);
    } else {
      AppendedRefl(competitors);
    }
  }

  /** A handle of the live list repeated among the new ones makes the second insert raise. */
  lemma RepeatedNewHandleAborts(t: Table<Competitor>, c: LiveCompetitor)
    requires c.name.Text? && c.handle.Text? && c.platform.Text? && c.handle.s !in Handles(t.rows)
    ensures PullLoop(PullState(t, 0, false), Handles(t.rows), [c, c]).aborted
  {
    var local := Handles(t.rows);
    var s1 := PullLoop(PullState(t, 0, false), local, [c]);
    assert [c, c][..1] == [c];
    assert PullLoop(PullState(t, 0, false), local, [c][..0]) == PullState(t, 0, false);
    assert s1 == PullState(Insert(t, NewCompetitor(c)), 1, false);
    assert s1.competitors.rows[|t.rows|].val.handle == c.handle.s;
  }

  /** The insert loop of the pull. */
  lemma PullLoopStep(s: PullState, local: set<string>, cs: seq<LiveCompetitor>, i: int)
    requires 0 <= i < |cs|
    ensures PullLoop(s, local, cs[..i + 1]) == PullStep(PullLoop(s, local, cs[..i]), local, cs[i])
  {
    assert cs[..i + 1][..i] == cs[..i];
  }

  method PullInsert(db: Database, local: set<string>, live: seq<LiveCompetitor>) returns (added: nat, aborted: bool)
    modifies db`competitors
    ensures PullState(db.competitors, added, aborted) == PullLoop(PullState(old(db.competitors), 0, false), local, live)
  {
    ghost var s0 := PullState(db.competitors, 0, false);
    added, aborted := 0, false;
    var i := 0;
    while i < |live|
      invariant 0 <= i <= |live|
      invariant PullState(db.competitors, added, aborted) == PullLoop(s0, local, live[..i])
    {
      PullLoopStep(s0, local, live, i);
      if !aborted {
        var c := live[i];
        if c.handle.Absent? {
          aborted := true;
        } else if c.handle.Text? && c.handle.s in local {
        } else if c.name.Absent? || c.platform.Absent? {
          aborted := true;
        } else if !c.name.Text? || !c.handle.Text? || !c.platform.Text? || c.handle.s in Handles(db.competitors.rows) {
          aborted := true;
        } else {
          db.competitors := Insert(db.competitors, NewCompetitor(c));
          added := added + 1;
        }
      }
      i := i + 1;
    }
    assert live[..i] == live;
  }

  /** `pull_from_live` on the database. */
  method PullFromLive(siteUrl: string, key: string, get: string -> Reply,
                      decode: string -> Option<seq<LiveCompetitor>>, db: Database) returns (out: PullOutcome)
    modifies db`competitors
    ensures (db.competitors, out) == PullRun(siteUrl, key, get, decode, old(db.competitors))
  {
    if siteUrl == [] || key == [] {
      return NotConfigured;
    }
    var reply := get(PullUrl(siteUrl, key));
    if reply.NoAnswer? || 400 <= reply.status < 600 {
      return Unreachable;
    }
    var text := ExtractArray(reply.body);
    if text.None? {
      return Unparsable;
    }
    var live := decode(text.value);
    if live.None? {
      return Unreachable;
    }
    var local := Handles(db.competitors.rows);
    var added, aborted := PullInsert(db, local, live.value);
    out := if aborted then Aborted(added) else Pulled(added);
  }
}

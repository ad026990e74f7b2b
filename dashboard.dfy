/**
 * The dashboard's helpers: URL and HTML sanitising, the Instagram embed link, the lead
 * pipeline (stage moves, manual creation, deletion) with its audit trail, and the grouping of
 * content suggestions and scripts into their columns. Rendering is left out; each button's
 * action is an operation on the database.
 */
module Dashboard {
  import opened Common
  import opened Tables
  import opened Store
  import MetaLeads

  // ---------------------------------------------------------------------------------------
  // Sanitising
  // ---------------------------------------------------------------------------------------

  /** `html.escape` on one character (quotes included). */
  function EscapeChar(c: char): string {
    if c == '&' then "&amp;"
    else if c == '<' then "&lt;"
    else if c == '>' then "&gt;"
    else if c == '"' then "&quot;"
    else if c == '\'' then "&#x27;"
    else [c]
  }

  /** The characters that would end an attribute value or open a tag. */
  predicate Markup(c: char) {
    c == '<' || c == '>' || c == '"' || c == '\''
  }

  /** `html.escape(s)`: the result holds no markup character. */
  function Escape(s: string): (r: string)
    ensures forall i :: 0 <= i < |r| ==> !Markup(r[i])
    ensures |s| <= |r|
  {
    if s == [] then [] else EscapeChar(s[0]) + Escape(s[1..])
  }

  /** `html.unescape` restricted to the five entities `html.escape` writes. */
  function Unescape(t: string): string
    decreases |t|
  {
    if t == [] then []
    else if t[0] != '&' then [t[0]] + Unescape(t[1..])
    else if StartsWith(t, "&amp;") then "&" + Unescape(t[5..])
    else if StartsWith(t, "&lt;") then "<" + Unescape(t[4..])
    else if StartsWith(t, "&gt;") then ">" + Unescape(t[4..])
    else if StartsWith(t, "&quot;") then "\"" + Unescape(t[6..])
    else if StartsWith(t, "&#x27;") then "'" + Unescape(t[6..])
    else "&" + Unescape(t[1..])
  }

  /** The entity of one markup character, in front of any text, unescapes to the character. */
  lemma UnescapeEntity(c: char, t: string)
    requires c == '&' || Markup(c)
    ensures Unescape(EscapeChar(c) + t) == [c] + Unescape(t)
  {
    var x := EscapeChar(c);
    var e := x + t;
    assert e[..|x|] == x && e[|x|..] == t;
    assert e[0] == '&';
    if c != '&' {
      assert e[1] == x[1] && x[1] != 'a';
      assert !StartsWith(e, "&amp;");
    }
    if c != '&' && c != '<' {
      assert !StartsWith(e, "&lt;");
    }
    if c == '"' || c == '\'' {
      assert !StartsWith(e, "&gt;");
    }
    if c == '\'' {
      assert !StartsWith(e, "&quot;");
    }
  }

  /** Unescaping one escaped character in front of any text gives the character back. */
  lemma UnescapeChar(c: char, t: string)
    ensures Unescape(EscapeChar(c) + t) == [c] + Unescape(t)
  {
    if c == '&' || Markup(c) {
      UnescapeEntity(c, t);
    } else {
      var e := EscapeChar(c) + t;
      assert e[0] == c && e[1..] == t;
    }
  }

  /** Escaping loses nothing: the original text can be read back. */
  lemma {:induction false} UnescapeEscape(s: string)
    ensures Unescape(Escape(s)) == s
  {
    if s != [] {
      UnescapeEscape(s[1..]);
      UnescapeChar(s[0], Escape(s[1..]));
    }
  }

  /** `esc`: the empty string for a missing or empty value, else the escaped text. */
  function Esc(text: Option<string>): (r: string)
    ensures text.None? || text.value == [] <==> r == []
  {
    if text.None? || text.value == [] then [] else Escape(text.value)
  }

  /** `safe_url`: the stripped URL when it uses the http or https scheme, else the empty string. */
  function SafeUrl(url: Option<string>): (r: string)
    ensures r != [] <==> url.Some? && (StartsWith(Strip(url.value), "http://") || StartsWith(Strip(url.value), "https://"))
    ensures r != [] ==> r == Strip(url.value)
  {
    if url.None? || url.value == [] then []
    else
      var u := Strip(url.value);
      if StartsWith(u, "http://") || StartsWith(u, "https://") then u else []
  }

  /** A stripped string strips to itself. */
  lemma StripStripped(s: string)
    ensures Strip(Strip(s)) == Strip(s)
  {
    var e := TrimEnd(s);
    var r := TrimStart(e);
    if r != [] {
      assert r[|r| - 1] == e[|e| - 1];
      assert TrimEnd(r) == r;
    }
  }

  /** Sanitising a sanitised URL changes nothing. */
  lemma SafeUrlIdempotent(url: Option<string>)
    ensures SafeUrl(Some(SafeUrl(url))) == SafeUrl(url)
  {
    if SafeUrl(url) != [] {
      StripStripped(url.value);
    }
  }

  /**
   * The embed link shown under a notable post: only for a safe URL that mentions
   * `instagram.com/`, and then the escaped form of that URL without trailing slashes plus
   * `/embed/`.
   */
  function EmbedUrl(postUrl: Option<string>): Option<string> {
    var u := SafeUrl(postUrl);
    if u != [] && Contains(u, "instagram.com/") then Some(Esc(Some(TrimEndChar(u, '/') + "/embed/"))) else None
  }

  /**
   * There is an embed link exactly for a safe Instagram URL; it cannot break out of the
   * `src` attribute it is written into, and unescaped it is the URL's frame address.
   */
  lemma EmbedUrlSafe(postUrl: Option<string>)
    ensures EmbedUrl(postUrl).Some? <==> SafeUrl(postUrl) != [] && Contains(SafeUrl(postUrl), "instagram.com/")
    ensures EmbedUrl(postUrl).Some? ==>
      && (forall i :: 0 <= i < |EmbedUrl(postUrl).value| ==> !Markup(EmbedUrl(postUrl).value[i]))
      && Unescape(EmbedUrl(postUrl).value) == TrimEndChar(SafeUrl(postUrl), '/') + "/embed/"
  {
    if EmbedUrl(postUrl).Some? {
      UnescapeEscape(TrimEndChar(SafeUrl(postUrl), '/') + "/embed/");
    }
  }

  // ---------------------------------------------------------------------------------------
  // Lead pipeline
  // ---------------------------------------------------------------------------------------

  /** A stage's column, counting from 0. */
  function StageIndex(s: Stage): (r: nat)
    ensures r <= 3
  {
    match s
    case New => 0
    case Contacted => 1
    case Qualified => 2
    case Enrolled => 3
  }

  /** The stage in a column. */
  function StageAt(i: nat): Stage
    requires i <= 3
  {
    if i == 0 then New else if i == 1 then Contacted else if i == 2 then Qualified else Enrolled
  }

  /** The pipeline order is a bijection between the stages and the columns 0..3. */
  lemma StageOrder(s: Stage, i: nat)
    requires i <= 3
    ensures StageAt(StageIndex(s)) == s
    ensures StageIndex(StageAt(i)) == i
  {
  }

  /** The column heading. */
  function Label(s: Stage): string {
    match s
    case New => "New"
    case Contacted => "Contacted"
    case Qualified => "Qualified"
    case Enrolled => "Enrolled"
  }

  /** The two stage buttons. */
  datatype Direction = Back | Forward

  /** The stage a button moves to: offered only when there is a column on that side. */
  function Target(s: Stage, d: Direction): (r: Option<Stage>)
    ensures d.Back? ==> (r.Some? <==> StageIndex(s) > 0)
    ensures d.Forward? ==> (r.Some? <==> StageIndex(s) < 3)
    ensures r.Some? ==> StageIndex(r.value) == if d.Back? then StageIndex(s) - 1 else StageIndex(s) + 1
  {
    var i := StageIndex(s);
    match d
    case Back => if i > 0 then Some(StageAt(i - 1)) else None
    case Forward => if i < 3 then Some(StageAt(i + 1)) else None
  }

  /** Back undoes Forward and the other way round. */
  lemma TargetInverse(s: Stage, t: Stage)
    ensures Target(s, Forward) == Some(t) <==> Target(t, Back) == Some(s)
  {
  }

  /** The foreign key of `lead_activity`: every activity row belongs to a stored lead. */
  ghost predicate ActivitiesReferToLeads(leads: Table<Lead>, activities: Table<Activity>) {
    forall i :: 0 <= i < |activities.rows| ==> HasId(leads, activities.rows[i].val.leadId)
  }

  /** The lead tables as the dashboard keeps them. */
  ghost predicate PipelineValid(leads: Table<Lead>, activities: Table<Activity>) {
    && LeadTablesValid(leads, activities)
    && ActivitiesReferToLeads(leads, activities)
  }

  /** The audit entry of a stage move. */
  function StageChanged(id: int, from: Stage, to: Stage): Activity {
    Activity(id, "Stage changed", Label(from) + " \U{2192} " + Label(to))
  }

  function WithStage(s: Stage): Lead -> Lead {
    (l: Lead) => l.(stage := s)
  }

  /** The lead tables after a change, and whether it went through. */
  datatype Pipeline = Pipeline(leads: Table<Lead>, activities: Table<Activity>, ok: bool)

  /**
   * A stage button pressed on lead id shown in column from: the lead's stage is set, then a
   * "Stage changed" entry is written. No button exists without a column on that side. When
   * the lead is no longer stored the update matches nothing and the entry violates the
   * foreign key, so nothing changes.
   */
  function MoveRun(leads: Table<Lead>, activities: Table<Activity>, id: int, from: Stage, d: Direction): Pipeline {
    match Target(from, d)
    case None => Pipeline(leads, activities, false)
    case Some(to) =>
      if !HasId(leads, id) then Pipeline(leads, activities, false)
      else Pipeline(UpdateById(leads, id, WithStage(to)), Insert(activities, StageChanged(id, from, to)), true)
  }

  /**
   * A move that goes through sets the lead's stage one column over, leaves every other lead
   * and every other field as it was, and appends exactly one activity: a "Stage changed"
   * entry for that lead naming both columns. The tables stay valid.
   */
  lemma MoveOneStep(leads: Table<Lead>, activities: Table<Activity>, id: int, from: Stage, d: Direction)
    requires PipelineValid(leads, activities)
    ensures var p := MoveRun(leads, activities, id, from, d);
      && PipelineValid(p.leads, p.activities)
      && (p.ok <==> Target(from, d).Some? && HasId(leads, id))
      && (!p.ok ==> p.leads == leads && p.activities == activities)
      && (p.ok ==>
            && Appended(activities, p.activities) && |p.activities.rows| == |activities.rows| + 1
            && p.activities.rows[|activities.rows|].val == StageChanged(id, from, Target(from, d).value)
            && |p.leads.rows| == |leads.rows|
            && forall i :: 0 <= i < |leads.rows| ==>
                 && p.leads.rows[i].id == leads.rows[i].id
                 && (leads.rows[i].id == id ==>
                       p.leads.rows[i].val == leads.rows[i].val.(stage := Target(from, d).value)
                       && StageIndex(p.leads.rows[i].val.stage) == if d.Back? then StageIndex(from) - 1 else StageIndex(from) + 1)
                 && (leads.rows[i].id != id ==> p.leads.rows[i] == leads.rows[i]))
  {
    var p := MoveRun(leads, activities, id, from, d);
    if p.ok {
      AppendedInsert(activities, StageChanged(id, from, Target(from, d).value));
      forall i | 0 <= i < |p.activities.rows| ensures HasId(p.leads, p.activities.rows[i].val.leadId) {
        var x := p.activities.rows[i].val.leadId;
        var k :| 0 <= k < |leads.rows| && leads.rows[k].id == x;
        assert p.leads.rows[k].id == x;
      }
    }
  }

  /** Forward then Back on a lead restores its stage; the trail keeps both entries. */
  lemma ForwardThenBack(leads: Table<Lead>, activities: Table<Activity>, id: int, from: Stage)
    requires WellFormed(leads) && HasId(leads, id) && StageIndex(from) < 3
    requires forall i :: 0 <= i < |leads.rows| && leads.rows[i].id == id ==> leads.rows[i].val.stage == from
    ensures var p := MoveRun(leads, activities, id, from, Forward);
      var q := MoveRun(p.leads, p.activities, id, Target(from, Forward).value, Back);
      && p.ok && q.ok
      && q.leads == leads
      && |q.activities.rows| == |activities.rows| + 2
  {
    var to := Target(from, Forward).value;
    var p := MoveRun(leads, activities, id, from, Forward);
    assert p.leads == UpdateById(leads, id, WithStage(to));
    var k :| 0 <= k < |leads.rows| && leads.rows[k].id == id;
    assert p.leads.rows[k].id == id;
    assert Target(to, Back) == Some(from);
    var q := MoveRun(p.leads, p.activities, id, to, Back);
    assert q.leads == UpdateById(p.leads, id, WithStage(from));
    StageRestored(leads, id, from, to);
    assert q.leads == leads;
    assert q.activities == Insert(p.activities, StageChanged(id, to, from));
  }

  /** Setting a lead's stage and then setting it back to the stage it had restores the table. */
  lemma StageRestored(leads: Table<Lead>, id: int, from: Stage, to: Stage)
    requires forall i :: 0 <= i < |leads.rows| && leads.rows[i].id == id ==> leads.rows[i].val.stage == from
    ensures UpdateById(UpdateById(leads, id, WithStage(to)), id, WithStage(from)) == leads
  {
    var u := UpdateById(UpdateById(leads, id, WithStage(to)), id, WithStage(from));
    forall i | 0 <= i < |leads.rows| ensures u.rows[i] == leads.rows[i] {
    }
    assert u.rows == leads.rows;
  }

  /** The stage-button action on the database. */
  method MoveStage(db: Database, id: int, from: Stage, d: Direction) returns (ok: bool)
    modifies db`leads, db`activities
    ensures Pipeline(db.leads, db.activities, ok) == MoveRun(old(db.leads), old(db.activities), id, from, d)
  {
    var to := Target(from, d);
    if to.None? || !HasId(db.leads, id) {
      return false;
    }
    db.leads := UpdateById(db.leads, id, WithStage(to.value));
    db.activities := Insert(db.activities, StageChanged(id, from, to.value));
    ok := true;
  }

  /** The Add Lead form's fields as typed. */
  datatype LeadForm = LeadForm(name: string, email: string, phone: string, campaign: string, ad: string, notes: string)

  /** The lead a form creates: text stripped, blank optional fields stored as null. */
  function ManualLead(f: LeadForm): Lead {
    Lead(Strip(f.name), MetaLeads.NoneIfEmpty(Strip(f.email)), MetaLeads.NoneIfEmpty(Strip(f.phone)), "manual",
         MetaLeads.NoneIfEmpty(Strip(f.campaign)), MetaLeads.NoneIfEmpty(Strip(f.ad)), None, New,
         MetaLeads.NoneIfEmpty(Strip(f.notes)))
  }

  function LeadCreated(id: int): Activity {
    Activity(id, "Lead created", "Manually added")
  }

  /** The insert pair both versions of the form perform. */
  function CreateLead(leads: Table<Lead>, activities: Table<Activity>, f: LeadForm): Pipeline {
    Pipeline(Insert(leads, ManualLead(f)), Insert(activities, LeadCreated(leads.next)), true)
  }

  /** The form's action as written: the emptiness test looks at the name before stripping it. */
  function AddLeadAsWritten(leads: Table<Lead>, activities: Table<Activity>, f: LeadForm): (r: Pipeline)
    ensures r.ok <==> f.name != []
    ensures !r.ok ==> r.leads == leads && r.activities == activities
    ensures r.ok ==> |r.leads.rows| == |leads.rows| + 1 && r.leads.rows[|leads.rows|].val.name == Strip(f.name)
  {
    if f.name == [] then Pipeline(leads, activities, false) else CreateLead(leads, activities, f)
  }

  /** A name of spaces passes the test and stores a lead whose name is empty. */
  lemma BlankNameStoresEmptyName(leads: Table<Lead>, activities: Table<Activity>)
    ensures var p := AddLeadAsWritten(leads, activities, LeadForm("   ", "", "", "", "", ""));
      p.ok && p.leads.rows[|leads.rows|].val.name == []
  {
    var f := LeadForm("   ", "", "", "", "", "");
    var p := AddLeadAsWritten(leads, activities, f);
    assert f.name != [];
    StripEmpty(f.name);
    assert p.leads.rows[|leads.rows|].val.name == Strip(f.name);
  }

  /** The form's action with the required name tested after stripping. */
  function AddLeadRun(leads: Table<Lead>, activities: Table<Activity>, f: LeadForm): Pipeline {
    if Strip(f.name) == [] then Pipeline(leads, activities, false) else CreateLead(leads, activities, f)
  }

  /**
   * A lead is created exactly when the name holds a non-space character; it is stored under the
   * next key with a non-empty stripped name, stage new and source manual, and one "Lead
   * created" entry for it follows. A name left blank changes nothing. The tables stay valid.
   */
  lemma AddLeadCreates(leads: Table<Lead>, activities: Table<Activity>, f: LeadForm)
    requires PipelineValid(leads, activities)
    ensures var p := AddLeadRun(leads, activities, f);
      && PipelineValid(p.leads, p.activities)
      && (p.ok <==> exists i :: 0 <= i < |f.name| && !IsSpace(f.name[i]))
      && (!p.ok ==> p.leads == leads && p.activities == activities)
      && (p.ok ==>
            && Appended(leads, p.leads) && |p.leads.rows| == |leads.rows| + 1
            && Appended(activities, p.activities) && |p.activities.rows| == |activities.rows| + 1
            && var l := p.leads.rows[|leads.rows|].val;
            && l.name != [] && !IsSpace(l.name[0]) && !IsSpace(l.name[|l.name| - 1])
            && l.stage == New && l.source == "manual"
            && p.activities.rows[|activities.rows|].val == LeadCreated(p.leads.rows[|leads.rows|].id))
  {
    StripEmpty(f.name);
    if Strip(f.name) != [] {
      CreateLeadValid(leads, activities, f);
      StrippedEnds(f.name);
    }
  }

  /** A non-empty stripped string neither starts nor ends with whitespace. */
  lemma StrippedEnds(s: string)
    requires Strip(s) != []
    ensures !IsSpace(Strip(s)[0]) && !IsSpace(Strip(s)[|Strip(s)| - 1])
  {
    var e := TrimEnd(s);
    var r := TrimStart(e);
    assert r == Strip(s);
    assert |r| <= |e| && r == e[|e| - |r|..];
    assert r[|r| - 1] == e[|e| - 1];
  }

  /** Storing a lead with an entry that points at it keeps the tables valid. */
  lemma InsertLeadValid(leads: Table<Lead>, activities: Table<Activity>, l: Lead, a: Activity)
    requires PipelineValid(leads, activities) && a.leadId == leads.next
    ensures PipelineValid(Insert(leads, l), Insert(activities, a))
  {
    var ls := Insert(leads, l);
    var acts := Insert(activities, a);
    assert ls.rows[|leads.rows|].id == leads.next;
    forall i | 0 <= i < |acts.rows| ensures HasId(ls, acts.rows[i].val.leadId) {
      if i < |activities.rows| {
        var x := activities.rows[i].val.leadId;
        var k :| 0 <= k < |leads.rows| && leads.rows[k].id == x;
        assert ls.rows[k].id == x;
      }
    }
  }

  /** Creating a lead appends one lead and its "Lead created" entry, and keeps the tables valid. */
  lemma CreateLeadValid(leads: Table<Lead>, activities: Table<Activity>, f: LeadForm)
    requires PipelineValid(leads, activities)
    ensures var p := CreateLead(leads, activities, f);
      && PipelineValid(p.leads, p.activities)
      && Appended(leads, p.leads) && Appended(activities, p.activities)
      && p.leads.rows[|leads.rows|] == Row(leads.next, ManualLead(f))
      && p.activities.rows[|activities.rows|].val == LeadCreated(leads.next)
  {
    AppendedInsert(leads, ManualLead(f));
    AppendedInsert(activities, LeadCreated(leads.next));
    InsertLeadValid(leads, activities, ManualLead(f), LeadCreated(leads.next));
  }

  /** The Add Lead action on the database; returns the new lead's key. */
  method AddLead(db: Database, f: LeadForm) returns (newId: Option<int>)
    modifies db`leads, db`activities
    ensures Pipeline(db.leads, db.activities, newId.Some?) == AddLeadRun(old(db.leads), old(db.activities), f)
    ensures newId.Some? ==> newId.value == old(db.leads.next)
  {
    if Strip(f.name) == [] {
      return None;
    }
    var id := db.leads.next;
    db.leads := Insert(db.leads, ManualLead(f));
    db.activities := Insert(db.activities, LeadCreated(id));
    newId := Some(id);
  }

  function ForLead(id: int): Activity -> bool {
    (a: Activity) => a.leadId == id
  }

  /** The delete button: the lead's activity rows go first, then the lead. */
  function DeleteRun(leads: Table<Lead>, activities: Table<Activity>, id: int): Pipeline {
    Pipeline(DeleteById(leads, id), DeleteWhere(activities, ForLead(id)), true)
  }

  /**
   * After a delete no lead and no activity row carries the key, every other lead and activity
   * row is still there, and the tables stay valid.
   */
  lemma DeleteRemoves(leads: Table<Lead>, activities: Table<Activity>, id: int)
    requires PipelineValid(leads, activities)
    ensures var p := DeleteRun(leads, activities, id);
      && PipelineValid(p.leads, p.activities)
      && !HasId(p.leads, id)
      && (forall i :: 0 <= i < |p.activities.rows| ==> p.activities.rows[i].val.leadId != id)
      && (forall i :: 0 <= i < |leads.rows| && leads.rows[i].id != id ==> leads.rows[i] in p.leads.rows)
      && (forall i :: 0 <= i < |activities.rows| && activities.rows[i].val.leadId != id ==> activities.rows[i] in p.activities.rows)
  {
    var ls := DeleteById(leads, id);
    var acts := DeleteWhere(activities, ForLead(id));
    forall i | 0 <= i < |acts.rows| ensures HasId(ls, acts.rows[i].val.leadId) && acts.rows[i].val.leadId < ls.next {
      KeptActivityHasLead(leads, activities, id, acts.rows[i]);
    }
  }

  /** An activity row kept by the delete still points at a lead the delete kept. */
  lemma KeptActivityHasLead(leads: Table<Lead>, activities: Table<Activity>, id: int, a: Row<Activity>)
    requires PipelineValid(leads, activities)
    requires a in activities.rows && a.val.leadId != id
    ensures HasId(DeleteById(leads, id), a.val.leadId) && a.val.leadId < leads.next
  {
    var j :| 0 <= j < |activities.rows| && activities.rows[j] == a;
    var k :| 0 <= k < |leads.rows| && leads.rows[k].id == a.val.leadId;
    var ls := DeleteById(leads, id);
    assert leads.rows[k] in ls.rows;
    var m :| 0 <= m < |ls.rows| && ls.rows[m] == leads.rows[k];
  }

  /** Deleting the lead just added gives back the rows as they were (the spent keys stay spent). */
  lemma DeleteUndoesAdd(leads: Table<Lead>, activities: Table<Activity>, f: LeadForm)
    requires PipelineValid(leads, activities) && Strip(f.name) != []
    ensures var p := AddLeadRun(leads, activities, f);
      var q := DeleteRun(p.leads, p.activities, leads.next);
      q.leads.rows == leads.rows && q.activities.rows == activities.rows
  {
    DeleteInserted(leads, ManualLead(f));
    DeleteWhereInserted(activities, LeadCreated(leads.next), ForLead(leads.next));
  }

  /** Deleting what only the row just inserted matches gives back the earlier rows. */
  lemma DeleteWhereInserted<R>(t: Table<R>, v: R, p: R -> bool)
    requires p(v) && forall i :: 0 <= i < |t.rows| ==> !p(t.rows[i].val)
    ensures DeleteWhere(Insert(t, v), p).rows == t.rows
  {
    var rows := Insert(t, v).rows;
    assert rows[..|rows| - 1] == t.rows;
    SelectAll(t.rows, Not(p));
  }

  /** A selection every row passes keeps every row. */
  lemma {:induction false} SelectAll<R>(rows: seq<Row<R>>, p: R -> bool)
    requires forall i :: 0 <= i < |rows| ==> p(rows[i].val)
    ensures Select(rows, p) == rows
  {
    if rows != [] {
      SelectAll(rows[..|rows| - 1], p);
    }
  }

  /** The delete button on the database. */
  method DeleteLead(db: Database, id: int)
    modifies db`leads, db`activities
    ensures Pipeline(db.leads, db.activities, true) == DeleteRun(old(db.leads), old(db.activities), id)
  {
    db.activities := DeleteWhere(db.activities, ForLead(id));
    db.leads := DeleteById(db.leads, id);
  }

  // ---------------------------------------------------------------------------------------
  // Suggestions and scripts
  // ---------------------------------------------------------------------------------------

  /** A content suggestion as listed: channel is absent when the row has no such key. */
  datatype Suggestion = Suggestion(title: string, priority: string, channel: Option<string>)

  /** `s.get("channel", "organic")`. */
  function ChannelOf(s: Suggestion): string {
    if s.channel.None? then "organic" else s.channel.value
  }

  /** The suggestions on one channel, in listing order. */
  function OnChannel(xs: seq<Suggestion>, ch: string): (r: seq<Suggestion>)
    ensures |r| <= |xs|
    ensures forall i :: 0 <= i < |r| ==> ChannelOf(r[i]) == ch && r[i] in xs
    ensures forall i :: 0 <= i < |xs| && ChannelOf(xs[i]) == ch ==> xs[i] in r
  {
    if xs == [] then []
    else OnChannel(xs[..|xs| - 1], ch) + (if ChannelOf(xs[|xs| - 1]) == ch then [xs[|xs| - 1]] else [])
  }

  /** The organic column: channel organic or absent. */
  function Organic(xs: seq<Suggestion>): seq<Suggestion> {
    OnChannel(xs, "organic")
  }

  /** The paid column. */
  function Paid(xs: seq<Suggestion>): seq<Suggestion> {
    OnChannel(xs, "paid")
  }

  /** The priority sort key: high, medium, low; any other value is NULL, which sorts first. */
  function PriorityRank(p: string): (r: nat)
    ensures r <= 3
    ensures r == 0 <==> p != "high" && p != "medium" && p != "low"
  {
    if p == "high" then 1 else if p == "medium" then 2 else if p == "low" then 3 else 0
  }

  /** Listed in priority order. */
  predicate ByPriority(xs: seq<Suggestion>) {
    forall i, j :: 0 <= i < j < |xs| ==> PriorityRank(xs[i].priority) <= PriorityRank(xs[j].priority)
  }

  /** Keeping one channel keeps the listing order, so a priority-sorted listing stays sorted. */
  lemma {:induction false} OnChannelByPriority(xs: seq<Suggestion>, ch: string)
    requires ByPriority(xs)
    ensures ByPriority(OnChannel(xs, ch))
  {
    if xs != [] {
      var init := xs[..|xs| - 1];
      var last := xs[|xs| - 1];
      assert ByPriority(init);
      OnChannelByPriority(init, ch);
      var r0 := OnChannel(init, ch);
      if ChannelOf(last) == ch {
        var r := r0 + [last];
        assert OnChannel(xs, ch) == r;
        forall i, j | 0 <= i < j < |r| ensures PriorityRank(r[i].priority) <= PriorityRank(r[j].priority) {
          if j == |r| - 1 {
            assert r[i] == r0[i] && r0[i] in init;
            var k :| 0 <= k < |init| && init[k] == r0[i];
            assert xs[k] == init[k];
          } else {
            assert r[i] == r0[i] && r[j] == r0[j];
          }
        }
      } else {
        assert OnChannel(xs, ch) == r0;
      }
    }
  }

  /** Both columns keep the query's order. */
  lemma ColumnsByPriority(xs: seq<Suggestion>)
    requires ByPriority(xs)
    ensures ByPriority(Organic(xs)) && ByPriority(Paid(xs))
  {
    OnChannelByPriority(xs, "organic");
    OnChannelByPriority(xs, "paid");
  }

  /**
   * When every channel is organic, paid or absent (the schema's CHECK), the two columns
   * split the suggestions: each lands in exactly one, and the sizes add up.
   */
  lemma {:induction false} ColumnsPartition(xs: seq<Suggestion>)
    requires forall i :: 0 <= i < |xs| ==> ChannelOf(xs[i]) == "organic" || ChannelOf(xs[i]) == "paid"
    ensures |Organic(xs)| + |Paid(xs)| == |xs|
    ensures forall i :: 0 <= i < |xs| ==> (xs[i] in Organic(xs) <==> ChannelOf(xs[i]) == "organic")
    ensures forall i :: 0 <= i < |xs| ==> (xs[i] in Paid(xs) <==> ChannelOf(xs[i]) == "paid")
  {
    if xs != [] {
      ColumnsPartition(xs[..|xs| - 1]);
    }
  }

  /** A script as listed. */
  datatype Script = Script(title: string, scriptType: string, status: string)

  /** The categories the board has a bucket for. */
  const Categories: seq<string> :=
    ["influencer_reels", "ad_reels", "voiceover_reels", "therapist_scripts", "carousel_posts", "suggestions"]

  /** A place on the scripts board. */
  datatype Column = Done | Todo(category: string) | Backlog(category: string)

  /** Where a script goes: completed ones regardless of type, the others only under a known category. */
  function Place(s: Script): Option<Column> {
    if s.status == "completed" then Some(Done)
    else if s.status == "todo" && s.scriptType in Categories then Some(Todo(s.scriptType))
    else if s.status == "backlog" && s.scriptType in Categories then Some(Backlog(s.scriptType))
    else None
  }

  /** The scripts board: a bucket per category for to-do and backlog, and the completed list. */
  datatype Board = Board(todo: map<string, seq<Script>>, backlog: map<string, seq<Script>>, completed: seq<Script>)

  function EmptyBuckets(cats: seq<string>): (m: map<string, seq<Script>>)
    ensures forall c :: c in m <==> c in cats
    ensures forall c :: c in m ==> m[c] == []
  {
    if cats == [] then map[] else EmptyBuckets(cats[1..])[cats[0] := []]
  }

  function EmptyBoard(): Board {
    Board(EmptyBuckets(Categories), EmptyBuckets(Categories), [])
  }

  ghost predicate Shaped(b: Board) {
    forall c :: (c in b.todo <==> c in Categories) && (c in b.backlog <==> c in Categories)
  }

  /** One script filed. */
  function File(b: Board, s: Script): (r: Board)
    requires Shaped(b)
    ensures Shaped(r)
  {
    match Place(s)
    case None => b
    case Some(Done) => b.(completed := b.completed + [s])
    case Some(Todo(c)) => b.(todo := b.todo[c := b.todo[c] + [s]])
    case Some(Backlog(c)) => b.(backlog := b.backlog[c := b.backlog[c] + [s]])
  }

  /** The grouping loop, script by script. */
  function Group(xs: seq<Script>): (b: Board)
    ensures Shaped(b)
  {
    if xs == [] then EmptyBoard() else File(Group(xs[..|xs| - 1]), xs[|xs| - 1])
  }

  lemma GroupStep(xs: seq<Script>, i: int)
    requires 0 <= i < |xs|
    ensures Group(xs[..i + 1]) == File(Group(xs[..i]), xs[i])
  {
    assert xs[..i + 1][..i] == xs[..i];
  }

  /** Filing tests the status first, then looks the type up among the board's buckets. */
  lemma FileBranches(b: Board, s: Script)
    requires Shaped(b)
    ensures s.status == "completed" ==> File(b, s) == b.(completed := b.completed + [s])
    ensures s.status != "completed" && s.status == "todo" && s.scriptType in b.todo ==>
      File(b, s) == b.(todo := b.todo[s.scriptType := b.todo[s.scriptType] + [s]])
    ensures s.status != "completed" && s.status == "backlog" && s.scriptType in b.backlog ==>
      File(b, s) == b.(backlog := b.backlog[s.scriptType := b.backlog[s.scriptType] + [s]])
    ensures (s.status != "completed" && !(s.status == "todo" && s.scriptType in b.todo)
             && !(s.status == "backlog" && s.scriptType in b.backlog)) ==> File(b, s) == b
  {
  }

  /** The scripts placed in one column, in listing order. */
  function InColumn(xs: seq<Script>, col: Column): seq<Script> {
    if xs == [] then []
    else InColumn(xs[..|xs| - 1], col) + (if Place(xs[|xs| - 1]) == Some(col) then [xs[|xs| - 1]] else [])
  }

  /** Filing one script appends it to the one list its place names, and to no other. */
  lemma FileAppends(b: Board, s: Script, c: string)
    requires Shaped(b) && c in Categories
    ensures File(b, s).completed == b.completed + (if Place(s) == Some(Done) then [s] else [])
    ensures File(b, s).todo[c] == b.todo[c] + (if Place(s) == Some(Todo(c)) then [s] else [])
    ensures File(b, s).backlog[c] == b.backlog[c] + (if Place(s) == Some(Backlog(c)) then [s] else [])
  {
    match Place(s)
    case None =>
    case Some(Done) =>
    case Some(Todo(d)) =>
    case Some(Backlog(d)) =>
  }

  /** Every list on the board holds exactly the scripts whose place it is, in listing order. */
  lemma {:induction false} GroupFilters(xs: seq<Script>)
    ensures Group(xs).completed == InColumn(xs, Done)
    ensures forall c :: c in Categories ==> Group(xs).todo[c] == InColumn(xs, Todo(c))
    ensures forall c :: c in Categories ==> Group(xs).backlog[c] == InColumn(xs, Backlog(c))
  {
    if xs != [] {
      var init := xs[..|xs| - 1];
      var s := xs[|xs| - 1];
      GroupFilters(init);
      var b0 := Group(init);
      assert Group(xs) == File(b0, s);
      FileAppends(b0, s, Categories[0]);
      forall c | c in Categories
        ensures Group(xs).todo[c] == InColumn(xs, Todo(c)) && Group(xs).backlog[c] == InColumn(xs, Backlog(c))
      {
        FileAppends(b0, s, c);
      }
    }
  }

  /** A script passing the schema's CHECK constraints. */
  predicate ScriptChecked(s: Script) {
    && s.scriptType in ["influencer_reels", "ad_reels", "voiceover_reels", "therapist_scripts", "carousel_posts"]
    && s.status in ["backlog", "todo", "completed"]
  }

  /** Under the schema's constraints nothing is dropped: every script has a place on the board. */
  lemma CheckedScriptsPlaced(s: Script)
    requires ScriptChecked(s)
    ensures Place(s).Some?
    ensures Place(s).value == if s.status == "completed" then Done else if s.status == "todo" then Todo(s.scriptType) else Backlog(s.scriptType)
  {
  }

  /** The board-building loop. */
  method GroupScripts(xs: seq<Script>) returns (b: Board)
    ensures b == Group(xs)
  {
    b := EmptyBoard();
    var i := 0;
    while i < |xs|
      invariant 0 <= i <= |xs|
      invariant b == Group(xs[..i])
    {
      GroupStep(xs, i);
      var s := xs[i];
      FileBranches(b, s);
      if s.status == "completed" {
        b := b.(completed := b.completed + [s]);
      } else if s.status == "todo" && s.scriptType in b.todo {
        b := b.(todo := b.todo[s.scriptType := b.todo[s.scriptType] + [s]]);
      } else if s.status == "backlog" && s.scriptType in b.backlog {
        b := b.(backlog := b.backlog[s.scriptType := b.backlog[s.scriptType] + [s]]);
      }
      i := i + 1;
    }
    assert xs[..i] == xs;
  }
}

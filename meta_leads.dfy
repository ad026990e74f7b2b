/**
 * Lead import: every lead submitted through one of the page's lead forms becomes a local lead
 * in stage `new` with a "Lead imported" activity, unless the three-way duplicate rule finds
 * it already there. A form whose leads cannot be fetched is skipped.
 */
module MetaLeads {
  import opened Common
  import opened Tables
  import opened Store
  import opened MetaApi

  // ---------------------------------------------------------------------------------------
  // Reading a submission
  // ---------------------------------------------------------------------------------------

  /** A field's answer: its first value, or "" when it has none. */
  function FieldValue(f: Field): string {
    if f.values != [] then f.values[0] else ""
  }

  /** The answers keyed by lower-cased question name; a later field overwrites an earlier one. */
  function FieldMapOf(fs: seq<Field>): map<string, string> {
    if fs == [] then map[]
    else FieldMapOf(fs[..|fs| - 1])[Lower(fs[|fs| - 1].name) := FieldValue(fs[|fs| - 1])]
  }

  /** The field-map loop. */
  method BuildFieldMap(fs: seq<Field>) returns (m: map<string, string>)
    ensures m == FieldMapOf(fs)
  {
    m := map[];
    var i := 0;
    while i < |fs|
      invariant 0 <= i <= |fs|
      invariant m == FieldMapOf(fs[..i])
    {
      assert fs[..i + 1][..i] == fs[..i];
      m := m[Lower(fs[i].name) := FieldValue(fs[i])];
      i := i + 1;
    }
    assert fs[..i] == fs;
  }

  /** Field j is the last one whose name lower-cases to k. */
  predicate LastNamed(fs: seq<Field>, j: int, k: string) {
    0 <= j < |fs| && Lower(fs[j].name) == k && forall i | j < i < |fs| :: Lower(fs[i].name) != k
  }

  /** A question is answered exactly when some field carries its name, in any letter case. */
  lemma {:induction false} FieldMapKeys(fs: seq<Field>, k: string)
    ensures k in FieldMapOf(fs) <==> exists i | 0 <= i < |fs| :: Lower(fs[i].name) == k
  {
    if fs != [] {
      var init := fs[..|fs| - 1];
      FieldMapKeys(init, k);
      assert forall i | 0 <= i < |init| :: init[i] == fs[i];
    }
  }

  /** The answer to a question is the value of the last field carrying its name. */
  lemma {:induction false} FieldMapLastWins(fs: seq<Field>, k: string, j: int)
    requires LastNamed(fs, j, k)
    ensures k in FieldMapOf(fs) && FieldMapOf(fs)[k] == FieldValue(fs[j])
  {
    var init := fs[..|fs| - 1];
    if j < |init| {
      assert forall i | 0 <= i < |init| :: init[i] == fs[i];
      assert LastNamed(init, j, k);
      FieldMapLastWins(init, k, j);
    }
  }

  /** `field_map.get(k, "")`. */
  function Get(m: map<string, string>, k: string): string {
    if k in m then m[k] else ""
  }

  /** The phone: `phone_number`, else `phone`. */
  function PhoneOf(m: map<string, string>): string {
    if Get(m, "phone_number") != [] then Get(m, "phone_number") else Get(m, "phone")
  }

  /** The name as submitted: `full_name`, else first and last name joined by a space, stripped. */
  function SubmittedName(m: map<string, string>): string {
    Strip(if Get(m, "full_name") != [] then Get(m, "full_name") else Get(m, "first_name") + " " + Get(m, "last_name"))
  }

  /** The stored name: the submitted one, else the email, else `Lead #<id>`. */
  function NameOf(m: map<string, string>, email: string, id: string): (r: string)
    ensures r != []
  {
    if SubmittedName(m) != [] then SubmittedName(m)
    else if email != [] then email
    else "Lead #" + id
  }

  /** The text holds something besides whitespace. */
  predicate HasText(s: string) {
    exists i | 0 <= i < |s| :: !IsSpace(s[i])
  }

  lemma JoinedBlank(a: string, b: string)
    ensures HasText(a + " " + b) <==> HasText(a) || HasText(b)
  {
    var s := a + " " + b;
    if HasText(a) {
      var i :| 0 <= i < |a| && !IsSpace(a[i]);
      assert s[i] == a[i];
    }
    if HasText(b) {
      var i :| 0 <= i < |b| && !IsSpace(b[i]);
      assert s[|a| + 1 + i] == b[i];
    }
    if HasText(s) {
      var i :| 0 <= i < |s| && !IsSpace(s[i]);
      if i < |a| {
        assert a[i] == s[i];
      } else if i > |a| {
        assert b[i - |a| - 1] == s[i];
      }
    }
  }

  /**
   * The order in which a lead's name is chosen: a full name with text in it; otherwise, when
   * the full name is empty, the first and last names if either has text; otherwise the email;
   * otherwise `Lead #<id>`. A full name of blanks does not fall back to the first and last
   * names, since only an empty one does.
   */
  lemma NameOrder(m: map<string, string>, email: string, id: string)
    ensures HasText(Get(m, "full_name")) ==> NameOf(m, email, id) == Strip(Get(m, "full_name"))
    ensures Get(m, "full_name") == [] && (HasText(Get(m, "first_name")) || HasText(Get(m, "last_name")))
      ==> NameOf(m, email, id) == Strip(Get(m, "first_name") + " " + Get(m, "last_name"))
    ensures !HasText(Get(m, "full_name")) && !HasText(Get(m, "first_name")) && !HasText(Get(m, "last_name"))
      ==> NameOf(m, email, id) == if email != [] then email else "Lead #" + id
    ensures Get(m, "full_name") != [] && !HasText(Get(m, "full_name"))
      ==> NameOf(m, email, id) == if email != [] then email else "Lead #" + id
  {
    var full := Get(m, "full_name");
    var joined := Get(m, "first_name") + " " + Get(m, "last_name");
    StripEmpty(full);
    StripEmpty(joined);
    JoinedBlank(Get(m, "first_name"), Get(m, "last_name"));
  }

  // ---------------------------------------------------------------------------------------
  // Duplicate rule and the import step
  // ---------------------------------------------------------------------------------------

  /** What the import derives from a submission. */
  datatype Resolved = Resolved(name: string, email: string, phone: string)

  function Resolve(x: RemoteLead): Resolved {
    var m := FieldMapOf(x.fields);
    var email := Get(m, "email");
    Resolved(NameOf(m, email, x.id), email, PhoneOf(m))
  }

  /**
   * The duplicate query: same email and form when there is an email, else same phone and form
   * when there is a phone, else same name and form among imported leads.
   */
  function DedupQuery(r: Resolved, form: string): Lead -> bool {
    if r.email != [] then (l: Lead) => l.email == Some(r.email) && l.formName == Some(form)
    else if r.phone != [] then (l: Lead) => l.phone == Some(r.phone) && l.formName == Some(form)
    else (l: Lead) => l.name == r.name && l.formName == Some(form) && l.source == "meta_ads"
  }

  /** `text or None`. */
  function NoneIfEmpty(s: string): Option<string> {
    if s == [] then None else Some(s)
  }

  function NewLead(r: Resolved, form: string, x: RemoteLead): Lead {
    Lead(r.name, NoneIfEmpty(r.email), NoneIfEmpty(r.phone), "meta_ads", x.campaignName, x.adName, Some(form), New, None)
  }

  function ImportedActivity(leadId: int, form: string): Activity {
    Activity(leadId, "Lead imported", "Auto-imported from Meta form: " + form)
  }

  /** The lead and activity tables, and the running count of imported leads. */
  datatype LeadSync = LeadSync(leads: Table<Lead>, activities: Table<Activity>, synced: nat)

  /**
   * One submission: skipped when a duplicate exists, else inserted with its activity. The
   * reading of the submission is a parameter `res`; the sync itself passes `Resolve`, and the
   * properties below hold whatever the reading.
   */
  function ImportLead(s: LeadSync, form: string, x: RemoteLead, res: RemoteLead -> Resolved): LeadSync {
    var r := res(x);
    if Exists(s.leads.rows, DedupQuery(r, form)) then s
    else LeadSync(Insert(s.leads, NewLead(r, form, x)), Insert(s.activities, ImportedActivity(s.leads.next, form)), s.synced + 1)
  }

  /** The submissions of one form, in the order fetched. */
  function ImportAll(s: LeadSync, form: string, xs: seq<RemoteLead>, res: RemoteLead -> Resolved): LeadSync {
    if xs == [] then s else ImportLead(ImportAll(s, form, xs[..|xs| - 1], res), form, xs[|xs| - 1], res)
  }

  lemma ImportAllStep(s: LeadSync, form: string, xs: seq<RemoteLead>, i: int, res: RemoteLead -> Resolved)
    requires 0 <= i < |xs|
    ensures ImportAll(s, form, xs[..i + 1], res) == ImportLead(ImportAll(s, form, xs[..i], res), form, xs[i], res)
  {
    assert xs[..i + 1][..i] == xs[..i];
  }

  /** The forms in order; a form whose lead listing fails contributes nothing. */
  function FormsRun(g: Graph, s: LeadSync, forms: seq<LeadForm>, res: RemoteLead -> Resolved): LeadSync {
    if forms == [] then s
    else
      var s0 := FormsRun(g, s, forms[..|forms| - 1], res);
      var f := forms[|forms| - 1];
      match AllPages(g.leads(f.id))
      case HttpFailure => s0
      case Fetched(xs) => ImportAll(s0, f.name, xs, res)
  }

  lemma FormsRunStep(g: Graph, s: LeadSync, forms: seq<LeadForm>, i: int, res: RemoteLead -> Resolved)
    requires 0 <= i < |forms|
    ensures FormsRun(g, s, forms[..i + 1], res)
         == match AllPages(g.leads(forms[i].id))
            case HttpFailure => FormsRun(g, s, forms[..i], res)
            case Fetched(xs) => ImportAll(FormsRun(g, s, forms[..i], res), forms[i].name, xs, res)
  {
    assert forms[..i + 1][..i] == forms[..i];
  }

  /** The whole lead sync, the count starting at 0. */
  function SyncLeadsRun(g: Graph, c: Config, leads: Table<Lead>, activities: Table<Activity>): LeadSync {
    var s := LeadSync(leads, activities, 0);
    if !IsLeadsConfigured(c) then s
    else match AllPages(g.forms(c.pageId))
      case HttpFailure => s
      case Fetched(forms) => FormsRun(g, s, forms, Resolve)
  }

  // ---------------------------------------------------------------------------------------
  // Properties
  // ---------------------------------------------------------------------------------------

  /**
   * u arises from s by appending rows only: as many activities as leads, the count grown by
   * that number, and the i-th new activity the "Lead imported" entry of the i-th new lead.
   */
  ghost predicate Extends(s: LeadSync, u: LeadSync) {
    && Appended(s.leads, u.leads) && Appended(s.activities, u.activities)
    && |u.activities.rows| - |s.activities.rows| == |u.leads.rows| - |s.leads.rows|
    && u.synced == s.synced + (|u.leads.rows| - |s.leads.rows|)
    && (forall i :: |s.activities.rows| <= i < |u.activities.rows| ==>
          u.activities.rows[i].val.leadId == s.leads.next + (i - |s.activities.rows|)
          && u.activities.rows[i].val.action == "Lead imported")
  }

  lemma ExtendsRefl(s: LeadSync)
    ensures Extends(s, s)
  {
    AppendedRefl(s.leads);
    AppendedRefl(s.activities);
  }

  lemma ExtendsStep(s: LeadSync, form: string, x: RemoteLead, res: RemoteLead -> Resolved)
    ensures Extends(s, ImportLead(s, form, x, res))
  {
    var u := ImportLead(s, form, x, res);
    if u == s {
      ExtendsRefl(s);
    } else {
      AppendedInsert(s.leads, NewLead(res(x), form, x));
      AppendedInsert(s.activities, ImportedActivity(s.leads.next, form));
    }
  }

  lemma ExtendsTrans(s: LeadSync, t: LeadSync, u: LeadSync)
    requires Extends(s, t) && Extends(t, u)
    ensures Extends(s, u)
  {
    AppendedTrans(s.leads, t.leads, u.leads);
    AppendedTrans(s.activities, t.activities, u.activities);
  }

  lemma {:induction false} ImportAllExtends(s: LeadSync, form: string, xs: seq<RemoteLead>, res: RemoteLead -> Resolved)
    ensures Extends(s, ImportAll(s, form, xs, res))
  {
    if xs == [] {
      ExtendsRefl(s);
    } else {
      var s0 := ImportAll(s, form, xs[..|xs| - 1], res);
      ImportAllExtends(s, form, xs[..|xs| - 1], res);
      ExtendsStep(s0, form, xs[|xs| - 1], res);
      ExtendsTrans(s, s0, ImportLead(s0, form, xs[|xs| - 1], res));
    }
  }

  lemma {:induction false} FormsRunExtends(g: Graph, s: LeadSync, forms: seq<LeadForm>, res: RemoteLead -> Resolved)
    ensures Extends(s, FormsRun(g, s, forms, res))
  {
    if forms == [] {
      ExtendsRefl(s);
    } else {
      var s0 := FormsRun(g, s, forms[..|forms| - 1], res);
      var f := forms[|forms| - 1];
      FormsRunExtends(g, s, forms[..|forms| - 1], res);
      if AllPages(g.leads(f.id)).Fetched? {
        ImportAllExtends(s0, f.name, AllPages(g.leads(f.id)).items, res);
        ExtendsTrans(s, s0, FormsRun(g, s, forms, res));
      }
    }
  }

  lemma SyncLeadsExtends(g: Graph, c: Config, leads: Table<Lead>, activities: Table<Activity>)
    ensures Extends(LeadSync(leads, activities, 0), SyncLeadsRun(g, c, leads, activities))
  {
    var s := LeadSync(leads, activities, 0);
    if IsLeadsConfigured(c) && AllPages(g.forms(c.pageId)).Fetched? {
      FormsRunExtends(g, s, AllPages(g.forms(c.pageId)).items, Resolve);
    } else {
      ExtendsRefl(s);
    }
  }

  /** The activity rows that record the import of lead `id`. */
  function ImportedFor(id: int): Activity -> bool {
    (a: Activity) => a.leadId == id && a.action == "Lead imported"
  }

  /**
   * The lead sync only appends: the count it returns is the number of leads it inserted, it
   * adds one activity per inserted lead, existing rows are untouched, and each inserted lead
   * has exactly one "Lead imported" activity, the one appended in the same position. Without
   * credentials it writes nothing and returns 0.
   */
  lemma SyncLeadsImports(g: Graph, c: Config, leads: Table<Lead>, activities: Table<Activity>)
    requires LeadTablesValid(leads, activities)
    ensures var u := SyncLeadsRun(g, c, leads, activities);
      && u.synced == |u.leads.rows| - |leads.rows| == |u.activities.rows| - |activities.rows|
      && u.leads.rows[..|leads.rows|] == leads.rows
      && u.activities.rows[..|activities.rows|] == activities.rows
      && (forall j, k :: |leads.rows| <= j < |u.leads.rows| && 0 <= k < |u.activities.rows| ==>
            (ImportedFor(u.leads.rows[j].id)(u.activities.rows[k].val) <==> k - |activities.rows| == j - |leads.rows|))
      && LeadTablesValid(u.leads, u.activities)
    ensures !IsLeadsConfigured(c) ==> SyncLeadsRun(g, c, leads, activities) == LeadSync(leads, activities, 0)
  {
    var u := SyncLeadsRun(g, c, leads, activities);
    SyncLeadsExtends(g, c, leads, activities);
    var na := |activities.rows|;
    forall i | 0 <= i < na ensures u.activities.rows[i] == activities.rows[i] {
      assert u.activities.rows[..na][i] == u.activities.rows[i];
    }
    AppendedWellFormed(leads, u.leads);
    AppendedWellFormed(activities, u.activities);
  }

  /** The submission x of form `form` already has a duplicate among the rows. */
  predicate Known(rows: seq<Row<Lead>>, form: string, x: RemoteLead, res: RemoteLead -> Resolved) {
    Exists(rows, DedupQuery(res(x), form))
  }

  lemma KnownStays(t: Table<Lead>, u: Table<Lead>, form: string, x: RemoteLead, res: RemoteLead -> Resolved)
    requires Appended(t, u) && Known(t.rows, form, x, res)
    ensures Known(u.rows, form, x, res)
  {
    var q := DedupQuery(res(x), form);
    var i :| 0 <= i < |t.rows| && q(t.rows[i].val);
    assert u.rows[..|t.rows|][i] == u.rows[i];
  }

  /** After a submission is processed, it has a duplicate in the table: the row found or the row inserted. */
  lemma ImportLeadKnows(s: LeadSync, form: string, x: RemoteLead, res: RemoteLead -> Resolved)
    ensures Known(ImportLead(s, form, x, res).leads.rows, form, x, res)
  {
    var u := ImportLead(s, form, x, res);
    if u != s {
      assert u.leads.rows[|u.leads.rows| - 1].val == NewLead(res(x), form, x);
    }
  }

  lemma ImportLeadAppends(s: LeadSync, form: string, x: RemoteLead, res: RemoteLead -> Resolved)
    ensures Appended(s.leads, ImportLead(s, form, x, res).leads)
  {
    if ImportLead(s, form, x, res) == s {
      AppendedRefl(s.leads);
    } else {
      AppendedInsert(s.leads, NewLead(res(x), form, x));
    }
  }

  /** Every submission of a form is known once the form is processed, a repeat inside the listing included. */
  lemma {:induction false} ImportAllKnows(s: LeadSync, form: string, xs: seq<RemoteLead>, res: RemoteLead -> Resolved)
    ensures forall i | 0 <= i < |xs| :: Known(ImportAll(s, form, xs, res).leads.rows, form, xs[i], res)
  {
    if xs != [] {
      var init := xs[..|xs| - 1];
      var s0 := ImportAll(s, form, init, res);
      var u := ImportLead(s0, form, xs[|xs| - 1], res);
      assert ImportAll(s, form, xs, res) == u;
      ImportAllKnows(s, form, init, res);
      ImportLeadAppends(s0, form, xs[|xs| - 1], res);
      ImportLeadKnows(s0, form, xs[|xs| - 1], res);
      forall i | 0 <= i < |init| ensures Known(u.leads.rows, form, xs[i], res) {
        assert init[i] == xs[i];
        KnownStays(s0.leads, u.leads, form, xs[i], res);
      }
    }
  }

  /** Submissions that are all known already change nothing. */
  lemma {:induction false} ImportAllSettled(s: LeadSync, form: string, xs: seq<RemoteLead>, res: RemoteLead -> Resolved)
    requires forall i | 0 <= i < |xs| :: Known(s.leads.rows, form, xs[i], res)
    ensures ImportAll(s, form, xs, res) == s
  {
    if xs != [] {
      ImportAllSettled(s, form, xs[..|xs| - 1], res);
    }
  }

  /** Every submission of form f that the remote lists is known. */
  ghost predicate FormKnown(g: Graph, rows: seq<Row<Lead>>, f: LeadForm, res: RemoteLead -> Resolved) {
    AllPages(g.leads(f.id)).Fetched? ==>
      forall j | 0 <= j < |AllPages(g.leads(f.id)).items| :: Known(rows, f.name, AllPages(g.leads(f.id)).items[j], res)
  }

  lemma FormKnownStays(g: Graph, t: Table<Lead>, u: Table<Lead>, f: LeadForm, res: RemoteLead -> Resolved)
    requires Appended(t, u) && FormKnown(g, t.rows, f, res)
    ensures FormKnown(g, u.rows, f, res)
  {
    if AllPages(g.leads(f.id)).Fetched? {
      var xs := AllPages(g.leads(f.id)).items;
      forall j | 0 <= j < |xs| ensures Known(u.rows, f.name, xs[j], res) {
        KnownStays(t, u, f.name, xs[j], res);
      }
    }
  }

  lemma {:induction false} FormsRunKnows(g: Graph, s: LeadSync, forms: seq<LeadForm>, res: RemoteLead -> Resolved)
    ensures forall i | 0 <= i < |forms| :: FormKnown(g, FormsRun(g, s, forms, res).leads.rows, forms[i], res)
  {
    if forms != [] {
      var init := forms[..|forms| - 1];
      var s0 := FormsRun(g, s, init, res);
      var f := forms[|forms| - 1];
      var u := FormsRun(g, s, forms, res);
      FormsRunKnows(g, s, init, res);
      if AllPages(g.leads(f.id)).Fetched? {
        ImportAllExtends(s0, f.name, AllPages(g.leads(f.id)).items, res);
        ImportAllKnows(s0, f.name, AllPages(g.leads(f.id)).items, res);
      } else {
        AppendedRefl(s0.leads);
      }
      forall i | 0 <= i < |init| ensures FormKnown(g, u.leads.rows, forms[i], res) {
        assert init[i] == forms[i];
        FormKnownStays(g, s0.leads, u.leads, forms[i], res);
      }
    }
  }

  lemma {:induction false} FormsRunSettled(g: Graph, s: LeadSync, forms: seq<LeadForm>, res: RemoteLead -> Resolved)
    requires forall i | 0 <= i < |forms| :: FormKnown(g, s.leads.rows, forms[i], res)
    ensures FormsRun(g, s, forms, res) == s
  {
    if forms != [] {
      var f := forms[|forms| - 1];
      FormsRunSettled(g, s, forms[..|forms| - 1], res);
      if AllPages(g.leads(f.id)).Fetched? {
        ImportAllSettled(s, f.name, AllPages(g.leads(f.id)).items, res);
      }
    }
  }

  /** Running the lead sync again against the same remote data imports nothing and returns 0. */
  lemma SyncLeadsIdempotent(g: Graph, c: Config, leads: Table<Lead>, activities: Table<Activity>)
    ensures var u := SyncLeadsRun(g, c, leads, activities);
      SyncLeadsRun(g, c, u.leads, u.activities) == LeadSync(u.leads, u.activities, 0)
  {
    var s := LeadSync(leads, activities, 0);
    if IsLeadsConfigured(c) && AllPages(g.forms(c.pageId)).Fetched? {
      var forms := AllPages(g.forms(c.pageId)).items;
      var u := FormsRun(g, s, forms, Resolve);
      FormsRunKnows(g, s, forms, Resolve);
      FormsRunSettled(g, LeadSync(u.leads, u.activities, 0), forms, Resolve);
    }
  }

  // ---------------------------------------------------------------------------------------
  // The sync loop
  // ---------------------------------------------------------------------------------------

  /** Reading one submission: the field map, then the name, email and phone drawn from it. */
  method ResolveLead(x: RemoteLead) returns (r: Resolved)
    ensures r == Resolve(x)
  {
    var m := BuildFieldMap(x.fields);
    var email := Get(m, "email");
    r := Resolved(NameOf(m, email, x.id), email, PhoneOf(m));
  }

  /** One submission: the duplicate query, then the lead and its activity when there is no duplicate. */
  method ImportOne(db: Database, form: string, x: RemoteLead, synced0: nat) returns (synced: nat)
    modifies db`leads, db`activities
    ensures LeadSync(db.leads, db.activities, synced) == ImportLead(LeadSync(old(db.leads), old(db.activities), synced0), form, x, Resolve)
  {
    var r := ResolveLead(x);
    synced := synced0;
    if !Exists(db.leads.rows, DedupQuery(r, form)) {
      var leadId := db.leads.next;
      db.leads := Insert(db.leads, NewLead(r, form, x));
      db.activities := Insert(db.activities, ImportedActivity(leadId, form));
      synced := synced + 1;
    }
  }

  /** One form's submissions, carrying the running count in and out. */
  method ImportFormLeads(db: Database, form: string, xs: seq<RemoteLead>, synced0: nat) returns (synced: nat)
    modifies db`leads, db`activities
    ensures LeadSync(db.leads, db.activities, synced) == ImportAll(LeadSync(old(db.leads), old(db.activities), synced0), form, xs, Resolve)
  {
    ghost var s0 := LeadSync(db.leads, db.activities, synced0);
    synced := synced0;
    var i := 0;
    while i < |xs|
      invariant 0 <= i <= |xs|
      invariant LeadSync(db.leads, db.activities, synced) == ImportAll(s0, form, xs[..i], Resolve)
    {
      ImportAllStep(s0, form, xs, i, Resolve);
      synced := ImportOne(db, form, xs[i], synced);
      i := i + 1;
    }
    assert xs[..i] == xs;
  }

  /**
   * `sync_leads`: nothing without a token and a page; a failing form listing ends the run with
   * 0; a failing lead listing skips that form. Returns the number of leads inserted.
   */
  method SyncLeads(g: Graph, c: Config, db: Database) returns (synced: nat)
    modifies db`leads, db`activities
    ensures LeadSync(db.leads, db.activities, synced) == SyncLeadsRun(g, c, old(db.leads), old(db.activities))
  {
    if !IsLeadsConfigured(c) {
      return 0;
    }
    var fetched := GetAllPages(g.forms(c.pageId));
    if fetched.HttpFailure? {
      return 0;
    }
    var forms := fetched.items;
    ghost var s0 := LeadSync(db.leads, db.activities, 0);
    synced := 0;
    var i := 0;
    while i < |forms|
      invariant 0 <= i <= |forms|
      invariant LeadSync(db.leads, db.activities, synced) == FormsRun(g, s0, forms[..i], Resolve)
    {
      FormsRunStep(g, s0, forms, i, Resolve);
      var f := forms[i];
      var got := GetAllPages(g.leads(f.id));
      if got.Fetched? {
        synced := ImportFormLeads(db, f.name, got.items, synced);
      }
      i := i + 1;
    }
    assert forms[..i] == forms;
  }
}

# Wavecrest reconciliation core, modelled in Dafny

Wavecrest is a marketing-operations dashboard backed by one SQLite file. Most of it is
single-row CRUD behind a Streamlit UI. This project models the part that reconciles
externally fetched records with the local tables:

- **Meta ads and leads sync** (`tools/meta_api.py`, modules `MetaApi`, `MetaCampaigns`,
  `MetaMetrics`, `MetaLeads`). It covers paginated Graph API listings, the mapping of the
  platform's status vocabulary onto `active`/`paused`/`completed`, and the upserts of the
  campaign → ad set → ad tree by platform id. It also covers the replacement of a day's
  campaign-level metric row and the lead import with its three-way duplicate rule and
  "Lead imported" audit entry.
- **Instagram scrape reconciliation** (`tools/ig_scraper.py`, module `IgScraper`). It
  covers per-post classification and caption truncation, the post limit and the
  partial-data warning, one snapshot per competitor and day, and post deduplication by
  (competitor, URL) with its added/skipped counts. `scan_all` is modelled over the
  competitors in name order.
- **Seed export and live pull** (`tools/sync_competitors.py`, module `SyncCompetitors`).
  It covers renumbering competitors 1..N, the in-place rewrite of each post's competitor
  reference, extraction of the embedded JSON array, and the handle-based competitor merge.
- **Dashboard helpers** (`dashboard/app.py`, module `Dashboard`). It covers `safe_url`,
  `esc` and the Instagram embed link, the lead pipeline (stage moves, manual creation,
  deletion) with its activity trail, and the grouping of suggestions and scripts into
  their columns.

The store is modelled in `Tables` and `Store`. A `Table<R>` is a sequence of rows with
AUTOINCREMENT keys; insertion hands out the next key. `Store.Database` is a class whose
fields are the tables; the sync methods reassign those fields one write at a time. Every
loop of the source is a `method` with invariants, proved equal to a recursive
specification function (`CampaignsLoop`, `DaysRun`, `ImportAll`, `SavePosts`, `PullLoop`,
`Group`, …). The properties are lemmas about those functions.

Remote data enters as parameters:
- A Graph API endpoint is a `Graph`: per node id, the chain of responses that following
  `paging.next` yields. An HTTP error status is an explicit `HttpError` response.
- A scraped profile is a `Lookup`: the profile, its post stream and an optional
  connection failure after the stream's last post.
- The live site is a `get` function returning a `Reply`, plus a JSON `decode` function.

The current date is a parameter. Budgets, spend and the ratios are kept as the text the
platform sent (`Money`, `Decimal`). The engagement estimate is kept symbolic
(`Engagement`).

Points where the code's behaviour is easy to misread:
- A Meta lead counts as a duplicate by name only against leads whose source is `meta_ads`
  (tools/meta_api.py:346). Leads entered by hand never block an import.
- The scraper classifies every post as `carousel`, `video` or `image`
  (tools/ig_scraper.py:72-78). Other values never reach `competitor_posts` from here.
- An HTTP error while listing ad sets or ads is not caught inside `sync_campaigns`. It
  propagates and ends the sync (`Run.ok == false`), leaving the rows already written.
- The same-day snapshot branch is commented `# Update existing snapshot`
  (tools/ig_scraper.py:124), but as written the UPDATE raises (first Findings row). The
  model keeps the in-place update that the comment describes. The rows built on it are
  marked "(corrected, see Findings)" below.
- As written, `scan_all` catches nothing around `save_to_db` (tools/ig_scraper.py:180-186).
  A second scan on the same day therefore ends with that exception at the first competitor
  that scrapes successfully and already has a snapshot for the day. It returns no result, and
  the competitors before it keep their writes. The corrected scan is the one modelled.
- The manual lead form is modelled with the blank-name test applied to the stripped name
  (second Findings row). `Dashboard.AddLead` is marked accordingly.

## Model

| member | source | states |
|---|---|---|
| `Tables.UpsertAllIdempotent` | tools/meta_api.py:106-124 | Upserting the same remote records a second time leaves the table exactly as the first pass left it |
| `Tables.UpsertAllUnique` | tools/meta_api.py:106-124 | Upsert by external id never creates a second row for an id: ids unique before stay unique |
| `Tables.UpsertAllCovers` | tools/meta_api.py:106-124 | After the upserts, every listed external id has a row |
| `Tables.UpsertAllKeepsRows` | tools/meta_api.py:106-124 | Upserts never remove or move rows; keys and external ids stay; rows created by hand (no id) or not listed are untouched; appended rows carry a listed id |
| `Tables.DeleteById` | tools/db_helpers.py:71-80 | Deleting by key leaves no row with that key, keeps every other row and adds none, keeps the key counter, and is a no-op when no row has the key |
| `Tables.DeleteInserted` | tools/db_helpers.py:44-55 | Deleting the row just inserted gives back the previous rows (the key stays spent) |
| `MetaApi.ConfiguredFromEnv` | tools/meta_api.py:36-47 | The client is configured iff token and ad account are set to something besides whitespace; lead sync likewise for token and page |
| `MetaApi.AllPagesFetched` | tools/meta_api.py:60-75 | When the chain ends with a page without `next`, the listing is the concatenation of every page's `data`, in fetch order |
| `MetaApi.AllPagesFails` | tools/meta_api.py:60-75 | The listing fails iff an error status (or a missing page) comes before a page without `next` |
| `MetaApi.GetAllPages` | tools/meta_api.py:60-75 | The pagination loop returns exactly the listing `AllPages` specifies |
| `MetaApi.MapStatus` | tools/meta_api.py:96-97 | PAUSED→paused, ARCHIVED or DELETED→completed, every other status (including a missing one)→active, each an iff |
| `MetaCampaigns.DateOf` | tools/meta_api.py:103-104 | A date is stored iff the timestamp is non-empty; it is at most 10 characters and a prefix of the timestamp |
| `MetaCampaigns.BudgetOf` | tools/meta_api.py:100-101 | A budget is stored iff the platform reports a non-empty one, and it carries that raw value |
| `MetaCampaigns.TargetingSummary` | tools/meta_api.py:159 | Targeting is stored iff present; at most 500 characters, a prefix of the rendering, and the whole rendering when it fits |
| `MetaCampaigns.CreativeSummary` | tools/meta_api.py:204-207 | The summary is None iff title and body are both empty; otherwise 1..200 characters, a prefix of the title, or of the body when the title is empty |
| `MetaCampaigns.SyncsLawful` | tools/meta_api.py:106-124 | The campaign, ad-set and ad reconciliations satisfy the upsert laws: updates keep the platform id and overwrite what an earlier update wrote; inserts carry the remote id |
| `MetaCampaigns.CampaignsLoopUpserts` | tools/meta_api.py:89-130 | A completed campaign loop leaves the campaign table as the upsert of the listed campaigns; the nested ad-set and ad syncs never touch it |
| `MetaCampaigns.CampaignsSyncUpserts` | tools/meta_api.py:79-130 | A completed sync upserts the listing: every listed campaign id has a row, and ids unique before stay unique |
| `MetaCampaigns.CampaignsSyncIdempotent` | tools/meta_api.py:79-130 | Rerunning a completed campaign sync on unchanged remote data completes too, and leaves the campaign, ad-set and ad tables exactly as they were: no row changes and none is added |
| `MetaCampaigns.CampaignsLoopOk` | tools/meta_api.py:106-221 | The campaign loop completes iff every ad-set listing below the campaigns and every ad listing below those can be fetched, whatever the tables hold, because each parent is upserted before its children are looked up |
| `MetaCampaigns.CampaignsLoopFiled` | tools/meta_api.py:106-221 | A completed campaign loop writes the ad-set table as one upsert sequence of the listed ad sets, each filed under its campaign's key, and the ad table as one upsert sequence of the listed ads, each filed under its ad set's key |
| `MetaCampaigns.AdSetsLoopUpserts` | tools/meta_api.py:152-176 | A completed ad-set loop leaves the ad-set table as the upsert of the listed ad sets |
| `MetaCampaigns.AdSetsKeepParent` | tools/meta_api.py:161-173 | An update never changes an ad set's `campaign_id`; every inserted ad set belongs to the local campaign found for the listing |
| `MetaCampaigns.OrphansWriteNothing` | tools/meta_api.py:143-147 | When the parent campaign (or ad set) has no local row, the ad-set (or ad) sync writes nothing |
| `MetaCampaigns.SyncAds` | tools/meta_api.py:178-221 | `_sync_ads` leaves the tables and its outcome exactly as `AdsSync` specifies |
| `MetaCampaigns.SyncAdSets` | tools/meta_api.py:132-176 | `_sync_ad_sets` leaves the tables and its outcome exactly as `AdSetsSync` specifies |
| `MetaCampaigns.SyncCampaignList` | tools/meta_api.py:106-130 | The campaign loop produces the `CampaignsLoop` state: each campaign upserted, then its ad sets; on success every listed campaign is counted |
| `MetaCampaigns.SyncCampaigns` | tools/meta_api.py:79-130 | `sync_campaigns` produces the `CampaignsSync` state; it returns the number of listed campaigns iff no HTTP error propagated |
| `MetaMetrics.ConversionsAreLeadTotal` | tools/meta_api.py:262-266 | A day's conversions are the sum of `value` over exactly the actions of the three lead types; all other actions are ignored |
| `MetaMetrics.ConversionsAppend` | tools/meta_api.py:262-266 | Conversions add up across a split of the action list |
| `MetaMetrics.CountConversions` | tools/meta_api.py:262-266 | The conversions loop computes `Conversions` |
| `MetaMetrics.ReplaceDayCount` | tools/meta_api.py:268-283 | Delete-then-insert leaves exactly one row on (campaign, date, no ad set, no ad), and every other key's count unchanged |
| `MetaMetrics.DaysRunCount` | tools/meta_api.py:250-284 | After a campaign's days, each date it reported has exactly one campaign-level row; days with an empty date write nothing |
| `MetaMetrics.MetricsRunCount` | tools/meta_api.py:233-284 | After `sync_metrics`, each (campaign, date) that was written has exactly one row, and every other key has as many as before |
| `MetaMetrics.ReplaceDayRows` | tools/meta_api.py:268-283 | After delete-then-insert, every row on (campaign, date, no ad set, no ad) is the new metric; a row on any other key is present iff it was before |
| `MetaMetrics.DaysRunRows` | tools/meta_api.py:250-284 | After a campaign's days, the campaign-level row of each reported date carries the figures of the last day reported for that date; every other row is present iff it was before |
| `MetaMetrics.MetricsRunRows` | tools/meta_api.py:233-284 | After `sync_metrics`, each written (campaign, date) row carries the figures of the last report for it; every other row, campaign-level or breakdown, is present iff it was before |
| `MetaMetrics.DaysRunKeepsBreakdown` | tools/meta_api.py:268-272 | Rows with an ad set or ad survive a campaign's day replacements |
| `MetaMetrics.MetricsRunKeepsBreakdown` | tools/meta_api.py:268-272 | The whole metric sync keeps every ad-set or ad breakdown row |
| `MetaMetrics.MetricsSkipsFailed` | tools/meta_api.py:237-248 | A campaign whose insights fetch fails (or that has no platform id) contributes no write and no count; the later campaigns are processed as if it were absent |
| `MetaMetrics.WriteDays` | tools/meta_api.py:250-284 | The per-day loop produces `DaysRun` and returns the number of dated days |
| `MetaMetrics.SyncMetrics` | tools/meta_api.py:225-286 | `sync_metrics` produces `MetricsRun` over the campaign rows, returns `MetricsCount`, and keeps the table well formed |
| `MetaLeads.BuildFieldMap` | tools/meta_api.py:321-323 | The field-map loop computes `FieldMapOf` |
| `MetaLeads.FieldMapKeys` | tools/meta_api.py:321-323 | A question is answered iff some field carries its name in any ASCII letter case |
| `MetaLeads.FieldMapLastWins` | tools/meta_api.py:321-323 | The answer is the first value of the last field with that name |
| `MetaLeads.NameOf` | tools/meta_api.py:325-331 | A stored lead name is never empty |
| `MetaLeads.NameOrder` | tools/meta_api.py:325-331 | Name order: `full_name`, else first + " " + last stripped, else email, else `Lead #<id>` (a blank `full_name` skips to the email) |
| `MetaLeads.ResolveLead` | tools/meta_api.py:321-331 | Reading a submission computes `Resolve`: name, email and phone (`phone_number`, else `phone`) |
| `MetaLeads.ImportAllKnows` | tools/meta_api.py:333-351 | Once a form is processed, every one of its submissions has a duplicate in the table, repeats within the listing included |
| `MetaLeads.ImportAllSettled` | tools/meta_api.py:350-351 | Submissions that all have duplicates change nothing |
| `MetaLeads.SyncLeadsImports` | tools/meta_api.py:290-370 | The lead sync only appends; its return value is the number of inserted leads; each inserted lead has exactly one "Lead imported" activity; with no token or page it writes nothing and returns 0 |
| `MetaLeads.SyncLeadsIdempotent` | tools/meta_api.py:290-370 | A second lead sync on the same remote data imports nothing and returns 0 |
| `MetaLeads.ImportOne` | tools/meta_api.py:318-368 | One submission: the dedup query, then the lead and its activity only when no duplicate exists (`ImportLead`) |
| `MetaLeads.ImportFormLeads` | tools/meta_api.py:317-368 | One form's loop computes `ImportAll` |
| `MetaLeads.SyncLeads` | tools/meta_api.py:290-370 | `sync_leads` produces `SyncLeadsRun`: 0 without credentials or when the form listing fails; a failing lead listing skips its form |
| `IgScraper.ContentTypeOf` | tools/ig_scraper.py:72-78 | carousel iff GraphSidecar; video iff not a sidecar and a video; image otherwise |
| `IgScraper.CaptionSnippet` | tools/ig_scraper.py:80-88 | None iff the caption is empty; otherwise its first min(len, 200) characters |
| `IgScraper.EngagementOf` | tools/ig_scraper.py:92-94 | The estimate is the literal 0 iff the follower count is not positive; otherwise (likes + comments) over followers |
| `IgScraper.ToPosts` | tools/ig_scraper.py:68-95 | Every post is mapped, count and order kept |
| `IgScraper.ScrapeBounds` | tools/ig_scraper.py:65-97 | At most `max_posts` posts, none for a private profile, the first posts of the stream in order. A public profile keeps exactly `Taken(n, max_posts)` of its n posts. It gets `scrape_warning` iff the stream failed and the loop asked for the post after the last one, and the posts gathered so far are kept |
| `IgScraper.ScrapeProfile` | tools/ig_scraper.py:30-101 | The scrape loop computes `Scrape`, including both error returns |
| `IgScraper.SaveSnapshotUpdates` | tools/ig_scraper.py:125-133 | With (competitor, date) unique, the update path rewrites exactly the day's snapshot and no other row (corrected, see Findings) |
| `IgScraper.SaveSnapshotKeys` | tools/ig_scraper.py:118-142 | Snapshot writes keep (competitor, date) unique and the table well formed (corrected, see Findings) |
| `IgScraper.SaveSnapshotUnique` | tools/ig_scraper.py:118-142 | After the save, a snapshot with the new counters exists for (competitor, today); one is added iff none existed; other snapshots are unchanged |
| `IgScraper.SaveSnapshotTwice` | tools/ig_scraper.py:118-142 | Saving the same counters twice on the same day equals saving once (corrected, see Findings) |
| `IgScraper.SaveSnapshotAsWritten` | tools/ig_scraper.py:125-133 | As written, the update path raises (None) iff a snapshot for (competitor, today) exists |
| `IgScraper.SecondSaveSameDayFails` | tools/ig_scraper.py:125-133 | As written, a second save on the same day raises |
| `IgScraper.SavePostsAppends` | tools/ig_scraper.py:144-162 | Saving posts only appends; `posts_added` equals the rows added, which is at most the number scraped |
| `IgScraper.SavePostsCovers` | tools/ig_scraper.py:144-162 | After saving, every scraped post's (competitor, URL) is stored, repeats in the batch included |
| `IgScraper.SavePostsSettled` | tools/ig_scraper.py:144-162 | Posts already stored add nothing and change nothing |
| `IgScraper.SavePostsUnique` | tools/ig_scraper.py:144-162 | A competitor never gets two stored posts with the same URL |
| `IgScraper.SavePostsLoop` | tools/ig_scraper.py:144-162 | The post loop computes `SavePosts` and its added count |
| `IgScraper.SaveRunReports` | tools/ig_scraper.py:104-171 | A scrape error is returned unchanged with no writes; an unknown handle is an error with no writes; otherwise added + skipped = scraped (corrected, see Findings) |
| `IgScraper.SaveRunTwice` | tools/ig_scraper.py:104-171 | Saving the same scrape again on the same day leaves both tables unchanged and adds 0 posts (corrected, see Findings) |
| `IgScraper.SaveToDb` | tools/ig_scraper.py:104-171 | `save_to_db` computes `SaveRun` (corrected, see Findings) |
| `IgScraper.OrderByName` | tools/ig_scraper.py:176 | `ORDER BY name` returns the same competitors, sorted by name |
| `IgScraper.ScanRunResults` | tools/ig_scraper.py:174-191 | One report per competitor, in scan order; each successful report names its competitor's handle (corrected, see Findings) |
| `IgScraper.ScanAll` | tools/ig_scraper.py:174-191 | `scan_all` scrapes and saves every competitor in name order; `competitors_scanned` = number of results = number of competitors (corrected, see Findings) |
| `SyncCompetitors.IdMapDense` | tools/sync_competitors.py:108-111 | The id map sends the k-th competitor to k; its domain is exactly the competitor keys, its values lie in 1..N, and it is injective |
| `SyncCompetitors.IdMapOnto` | tools/sync_competitors.py:108-111 | Every value 1..N is taken |
| `SyncCompetitors.BuildIdMap` | tools/sync_competitors.py:108-111 | The id-map loop computes `IdMapOf` |
| `SyncCompetitors.RemapPosts` | tools/sync_competitors.py:113-115 | The in-place rewrite replaces each post's competitor id with its mapped value when the map has it, and changes nothing else |
| `SyncCompetitors.Vals` | tools/sync_competitors.py:117-118 | The exported competitors are the same records, in the same order, without their keys |
| `SyncCompetitors.ExportConsistent` | tools/sync_competitors.py:99-120 | Same competitors in order; same posts in order with only `competitor_id` changed; a post of the k-th competitor points at k; unmapped ids stay; all in 1..N when every post's competitor is exported |
| `SyncCompetitors.ExportToJson` | tools/sync_competitors.py:92-126 | The export computes `Export` over the stored rows in key order |
| `SyncCompetitors.ExtractArray` | tools/sync_competitors.py:51-55 | Fails iff either bracket is missing; otherwise the text from the first `[` through the last `]`, empty when they are out of order |
| `SyncCompetitors.PullLoopAppends` | tools/sync_competitors.py:61-75 | The insert loop only appends; `added` = rows inserted; without an error the inserts are exactly the live competitors whose handle was not in the set read before the loop |
| `SyncCompetitors.PullLoopKeepsValid` | tools/sync_competitors.py:61-75 | The pull keeps keys well formed and handles unique |
| `SyncCompetitors.RepeatedNewHandleAborts` | tools/sync_competitors.py:62-73 | A new handle listed twice raises on its second insert, because the local handle set is not updated during the loop |
| `SyncCompetitors.PullRunPromises` | tools/sync_competitors.py:33-79 | No-op without URL or key, and when the fetch or parse fails; otherwise append-only, with `added` = rows inserted = new handles when nothing raised |
| `SyncCompetitors.PullInsert` | tools/sync_competitors.py:61-75 | The insert loop computes `PullLoop` |
| `SyncCompetitors.PullFromLive` | tools/sync_competitors.py:33-79 | `pull_from_live` computes `PullRun` |
| `Dashboard.Escape` | dashboard/app.py:29-33 | Escaped text contains no `<`, `>`, `"` or `'` |
| `Dashboard.UnescapeEscape` | dashboard/app.py:29-33 | Escaping loses nothing: unescaping gives the text back |
| `Dashboard.Esc` | dashboard/app.py:29-33 | `esc` returns "" iff the input is missing or empty |
| `Dashboard.SafeUrl` | dashboard/app.py:36-43 | Non-empty iff the stripped URL starts with `http://` or `https://`; then it is the stripped URL |
| `Dashboard.SafeUrlIdempotent` | dashboard/app.py:36-43 | Sanitising a sanitised URL changes nothing |
| `Dashboard.EmbedUrlSafe` | dashboard/app.py:517-519 | An embed link exists iff the safe URL contains `instagram.com/`; it holds no markup character and unescapes to the URL without trailing `/` plus `/embed/` |
| `Dashboard.StageOrder` | dashboard/styles/theme.py:282-287 | new, contacted, qualified, enrolled correspond one-to-one with columns 0..3 |
| `Dashboard.Target` | dashboard/app.py:1324-1353 | Back is offered iff index > 0, forward iff index < 3; the target is one column over |
| `Dashboard.TargetInverse` | dashboard/app.py:1324-1353 | Back undoes forward and forward undoes back |
| `Dashboard.MoveOneStep` | dashboard/app.py:1330-1352 | A stage move sets only that lead's stage, one column over, and appends exactly one "Stage changed" entry naming the old and new labels; otherwise nothing changes |
| `Dashboard.ForwardThenBack` | dashboard/app.py:1324-1353 | Forward then back restores the lead table; the trail keeps both entries |
| `Dashboard.MoveStage` | dashboard/app.py:1324-1353 | The button action computes `MoveRun` |
| `Dashboard.AddLeadCreates` | dashboard/app.py:1386-1403 | A lead is created iff the name has a non-space character: stored stripped, stage new, source manual, with one "Lead created" entry; a blank name writes nothing |
| `Dashboard.CreateLeadValid` | dashboard/app.py:1388-1403 | Creation appends one lead and its entry pointing at the new key, and keeps every activity referring to a stored lead |
| `Dashboard.AddLeadAsWritten` | dashboard/app.py:1386-1403 | As written, the form rejects exactly the empty name and then writes nothing; any other name is stored stripped as a new row |
| `Dashboard.BlankNameStoresEmptyName` | dashboard/app.py:1386-1389 | As written, a name of spaces stores a lead whose name is empty |
| `Dashboard.AddLead` | dashboard/app.py:1386-1403 | The form action computes `AddLeadRun` and returns the new lead's key (corrected, see Findings) |
| `Dashboard.DeleteRemoves` | dashboard/app.py:1355-1357 | After a delete, no lead and no activity row carries the key; every other lead and activity row remains; the tables stay valid |
| `Dashboard.DeleteUndoesAdd` | dashboard/app.py:1355-1357 | Deleting the lead just added restores both tables' rows |
| `Dashboard.DeleteLead` | dashboard/app.py:1355-1357 | The delete button removes the activity rows, then the lead (`DeleteRun`) |
| `Dashboard.OnChannel` | dashboard/app.py:210-211 | A column holds exactly the suggestions on its channel, a missing channel counting as organic |
| `Dashboard.ColumnsPartition` | dashboard/app.py:210-211 | With channels organic, paid or missing, each suggestion lands in exactly one column, and the sizes add up |
| `Dashboard.PriorityRank` | dashboard/app.py:202 | A priority other than high, medium or low gets the lowest rank (the NULL of the CASE sorts first); the three named ones rank above it |
| `Dashboard.ColumnsByPriority` | dashboard/app.py:202-211 | Both columns keep the query's priority order |
| `Dashboard.FileAppends` | dashboard/app.py:889-895 | Filing a script appends it to the one list its status and type name, and to no other |
| `Dashboard.GroupFilters` | dashboard/app.py:884-895 | Completed list = completed scripts of any type; each category's to-do and backlog bucket = scripts of that status and type; others dropped; listing order kept |
| `Dashboard.CheckedScriptsPlaced` | dashboard/app.py:889-895 | Every script that passes the schema's CHECK constraints has a place on the board |
| `Dashboard.GroupScripts` | dashboard/app.py:884-895 | The grouping loop computes `Group` |

## Left out

- Streamlit rendering, Plotly charts, CSS, the password gate, the archived pages, and the
  CLI managers (calendar, scripts, ideas, suggestions, competitive intel, init, seed).
  They are UI or single-row CRUD.
- `push_to_git`, the JSON file write, `print`, argparse, dotenv and environment reads. They
  are I/O. Configuration is a parameter (`MetaApi.Config`, the site URL and key).
- SQLite itself (`tools/db_helpers.py`). It is replaced by `Tables`: AUTOINCREMENT keys,
  no transactions, no locking. Each write is applied in order, as each statement commits
  on its own.
- Floating point. Budget cents/100, `float(spend/ctr/cpc/cpm)` and the engagement division
  and `round` are kept symbolic. Only the zero-follower branch is stated.
- Wall-clock time. `today` is a parameter, and the `sync_metrics` time window is part of the
  remote answer.
- HTTP transport. Every failed fetch is one `HttpError`/`HttpFailure`. The source catches
  only `requests.HTTPError` in `sync_metrics` and `sync_leads`. A connection error or
  timeout there propagates and ends the sync, and the model does not distinguish it.
- Missing required JSON keys (`camp["id"]`, `camp["name"]`, `form["id"]`, `lead_data["id"]`,
  `post["post_url"]`) raise `KeyError` in the source. The remote record types always carry
  them, so that path is not modelled. In the live pull, a missing key is modelled (it
  aborts the loop).
- `MetaLeads.FieldMapKeys`: field names are lowered with ASCII case mapping only (`Common.Lower`), while
  `str.lower` maps all of Unicode. The six keys the code reads are ASCII.
- `MetaCampaigns.SyncCampaigns`: requires and ensures the well-formedness of the three ad
  tables only, not the whole `Database.Valid()`. Those tables are the only ones it writes.
- `MetaLeads.SyncLeads`: the dedup and count properties are proved on `SyncLeadsRun`
  (`SyncLeadsImports`, `SyncLeadsIdempotent`). The method's ensures only ties it to that
  function.
- `IgScraper.ScrapeProfile`: `profile_pic_url`, `external_url` and `scraped_at` are not
  modelled. The library's lookup and post stream are an input (`Lookup`).
- `IgScraper.OrderByName`: names are compared by code point (SQLite's binary collation).
  Rows with equal names keep table order, an order SQLite does not promise.
- `SyncCompetitors.PullFromLive`: the HTTP request and JSON decoding are parameters
  (`get`, `decode`). A decoding failure and any exception inside the `try` both end as
  `Unreachable`.
- `Dashboard.Esc`: `str(text)` on non-string values is not modelled; text is a string.
  `Unescape` reads back only the five entities `html.escape` writes.
- `Dashboard.ColumnsByPriority`: the priority filter and the `created_at DESC` tiebreak of
  the suggestions query are not modelled (no timestamps). The query's priority order is
  the lemma's precondition.

## Findings

| source | as written | input that shows it | evidently intended | confidence | as-written member | corrected member |
|---|---|---|---|---|---|---|
| tools/ig_scraper.py:125-133 | Refreshing an existing same-day snapshot goes through `update_row`, which always sets `updated_at`. `competitor_snapshots` has no such column (tools/db_init.py:121-131), so the UPDATE raises, and `scan_all` (tools/ig_scraper.py:180-186) does not catch it | `save_to_db` twice for the same competitor on the same day | the existing snapshot is overwritten in place and the posts are saved | high (not executed) | `IgScraper.SaveSnapshotAsWritten`, `IgScraper.SecondSaveSameDayFails` | `IgScraper.SaveSnapshotUnique` |
| dashboard/app.py:1386-1389 | The required-name test looks at the name before stripping it | name `"   "` | a name of only spaces is rejected like an empty one | high (not executed) | `Dashboard.AddLeadAsWritten`, `Dashboard.BlankNameStoresEmptyName` | `Dashboard.AddLeadCreates` |

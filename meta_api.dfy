/**
 * The ads platform's Graph API as the sync code sees it: the credentials read from the
 * environment, the records the endpoints return, paginated responses, and the mapping of the
 * platform's status vocabulary onto the local one.
 */
module MetaApi {
  import opened Common
  import opened Store

  // ---------------------------------------------------------------------------------------
  // Credentials
  // ---------------------------------------------------------------------------------------

  /** The three credentials, each read from the environment and stripped of surrounding whitespace. */
  datatype Config = Config(accessToken: string, adAccountId: string, pageId: string)

  /** An environment variable's value, or "" when it is unset. */
  function EnvOr(v: Option<string>): string {
    if v.Some? then v.value else ""
  }

  /** The client as constructed from the environment. */
  function FromEnv(token: Option<string>, adAccount: Option<string>, page: Option<string>): (c: Config)
    ensures |c.accessToken| <= |EnvOr(token)| && |c.adAccountId| <= |EnvOr(adAccount)| && |c.pageId| <= |EnvOr(page)|
  {
    Config(Strip(EnvOr(token)), Strip(EnvOr(adAccount)), Strip(EnvOr(page)))
  }

  /** Campaign and metric sync need a token and an ad account. */
  predicate IsConfigured(c: Config) {
    c.accessToken != "" && c.adAccountId != ""
  }

  /** Lead sync needs a token and a page. */
  predicate IsLeadsConfigured(c: Config) {
    c.accessToken != "" && c.pageId != ""
  }

  /** The environment value is set and holds something other than whitespace. */
  predicate Meaningful(v: Option<string>) {
    v.Some? && exists i | 0 <= i < |v.value| :: !IsSpace(v.value[i])
  }

  /**
   * A client built from the environment is configured exactly when both variables are set to
   * something besides whitespace: a value of blanks counts as unset.
   */
  lemma ConfiguredFromEnv(token: Option<string>, adAccount: Option<string>, page: Option<string>)
    ensures IsConfigured(FromEnv(token, adAccount, page)) <==> Meaningful(token) && Meaningful(adAccount)
    ensures IsLeadsConfigured(FromEnv(token, adAccount, page)) <==> Meaningful(token) && Meaningful(page)
  {
    StripEmpty(EnvOr(token));
    StripEmpty(EnvOr(adAccount));
    StripEmpty(EnvOr(page));
  }

  // ---------------------------------------------------------------------------------------
  // Remote records
  // ---------------------------------------------------------------------------------------

  /**
   * A campaign as listed under the ad account. Absent text fields read as "" (the code's
   * `get(..., "")`); budgets are the platform's minor-unit strings.
   */
  datatype RemoteCampaign = RemoteCampaign(
    id: string, name: string, objective: Option<string>, status: string,
    dailyBudget: string, lifetimeBudget: string, startTime: string, stopTime: string)

  /** An ad set; `targeting` is the text rendering of the targeting spec, None when it is absent or empty. */
  datatype RemoteAdSet = RemoteAdSet(id: string, name: string, status: string, targeting: Option<string>)

  /** An ad with the title and body of its creative ("" when absent). */
  datatype RemoteAd = RemoteAd(id: string, name: string, status: string, title: string, body: string)

  /** One reported action of a day, with its count. */
  datatype Action = Action(actionType: string, value: int)

  /** One day of a campaign's insights; absent counters read as 0 and absent decimals as "0". */
  datatype InsightDay = InsightDay(
    dateStart: string, spend: string, impressions: int, clicks: int,
    actions: seq<Action>, ctr: string, cpc: string, cpm: string)

  /** A lead-generation form of the page; an absent name reads as "". */
  datatype LeadForm = LeadForm(id: string, name: string)

  /** One answered question of a lead form. */
  datatype Field = Field(name: string, values: seq<string>)

  /** A submitted lead. */
  datatype RemoteLead = RemoteLead(id: string, fields: seq<Field>, campaignName: Option<string>, adName: Option<string>)

  // ---------------------------------------------------------------------------------------
  // Pagination
  // ---------------------------------------------------------------------------------------

  /**
   * One HTTP response: a page of records with the URL of the next page ("" when the response
   * names none), or an error status.
   */
  datatype Response<T> = Page(data: seq<T>, next: string) | HttpError

  /** The outcome of fetching a whole listing: every record, or the HTTP error that ended it. */
  datatype Fetch<T> = Fetched(items: seq<T>) | HttpFailure

  /**
   * What the remote answers, per endpoint and node id: the chain of responses that following
   * the `next` links from the first request produces. A request past the end of a chain fails.
   */
  datatype Graph = Graph(
    campaigns: string -> seq<Response<RemoteCampaign>>,
    adSets: string -> seq<Response<RemoteAdSet>>,
    ads: string -> seq<Response<RemoteAd>>,
    insights: string -> seq<Response<InsightDay>>,
    forms: string -> seq<Response<LeadForm>>,
    leads: string -> seq<Response<RemoteLead>>)

  /** The listing obtained by requesting response k of a chain and following `next` links from there. */
  function PagesFrom<T>(chain: seq<Response<T>>, k: nat): Fetch<T>
    decreases |chain| - k
  {
    if k >= |chain| then HttpFailure
    else match chain[k]
      case HttpError => HttpFailure
      case Page(data, next) =>
        if next == "" then Fetched(data)
        else Prepend(data, PagesFrom(chain, k + 1))
  }

  /** The whole listing an endpoint yields. */
  function AllPages<T>(chain: seq<Response<T>>): Fetch<T> {
    PagesFrom(chain, 0)
  }

  /** Records already collected, put in front of a listing that is still to be fetched. */
  function Prepend<T>(xs: seq<T>, f: Fetch<T>): Fetch<T> {
    match f
    case HttpFailure => HttpFailure
    case Fetched(ys) => Fetched(xs + ys)
  }

  /** The records of a run of responses, in order. */
  function Flatten<T>(ps: seq<Response<T>>): seq<T> {
    if ps == [] then [] else (if ps[0].Page? then ps[0].data else []) + Flatten(ps[1..])
  }

  /**
   * Following the chain from response k succeeds and ends at response n - 1: every response
   * up to it is a page, each but the last names a next page, and the last names none.
   */
  ghost predicate TerminatesFrom<T>(chain: seq<Response<T>>, k: nat, n: nat) {
    && k < n <= |chain|
    && (forall i :: k <= i < n ==> chain[i].Page?)
    && (forall i :: k <= i < n - 1 ==> chain[i].next != "")
    && chain[n - 1].next == ""
  }

  lemma {:induction false} PagesFromFetched<T>(chain: seq<Response<T>>, k: nat, n: nat)
    requires TerminatesFrom(chain, k, n)
    ensures PagesFrom(chain, k) == Fetched(Flatten(chain[k..n]))
    decreases n - k
  {
    assert chain[k..n][1..] == chain[k + 1..n];
    if k + 1 < n {
      PagesFromFetched(chain, k + 1, n);
    } else {
      assert chain[k + 1..n] == [];
    }
  }

  lemma {:induction false} PagesFromTerminates<T>(chain: seq<Response<T>>, k: nat)
    requires PagesFrom(chain, k).Fetched?
    ensures exists n :: TerminatesFrom(chain, k, n)
    decreases |chain| - k
  {
    if chain[k].next == "" {
      assert TerminatesFrom(chain, k, k + 1);
    } else {
      PagesFromTerminates(chain, k + 1);
      var n :| TerminatesFrom(chain, k + 1, n);
      assert TerminatesFrom(chain, k, n);
    }
  }

  /**
   * When the chain ends properly after n responses, the listing is the concatenation of their
   * `data` arrays in fetch order.
   */
  lemma AllPagesFetched<T>(chain: seq<Response<T>>, n: nat)
    requires TerminatesFrom(chain, 0, n)
    ensures AllPages(chain) == Fetched(Flatten(chain[..n]))
  {
    PagesFromFetched(chain, 0, n);
    assert chain[0..n] == chain[..n];
  }

  /** The listing fails exactly when the chain hits an error (or runs out) before a page without `next`. */
  lemma AllPagesFails<T>(chain: seq<Response<T>>)
    ensures AllPages(chain).HttpFailure? <==> forall n :: !TerminatesFrom(chain, 0, n)
  {
    if AllPages(chain).Fetched? {
      PagesFromTerminates(chain, 0);
    } else if n :| TerminatesFrom(chain, 0, n) {
      PagesFromFetched(chain, 0, n);
    }
  }

  /**
   * The pagination loop: request a page, collect its records, follow `next` until a page has
   * none; an error status raises, discarding what was collected.
   */
  method GetAllPages<T>(chain: seq<Response<T>>) returns (r: Fetch<T>)
    ensures r == AllPages(chain)
  {
    var results: seq<T> := [];
    var k := 0;
    while true
      invariant 0 <= k
      invariant AllPages(chain) == Prepend(results, PagesFrom(chain, k))
      decreases |chain| - k
    {
      if k >= |chain| {
        return HttpFailure;
      }
      match chain[k]
      case HttpError =>
        return HttpFailure;
      case Page(data, next) =>
        results := results + data;
        if next == "" {
          return Fetched(results);
        }
        k := k + 1;
    }
  }

  // ---------------------------------------------------------------------------------------
  // Status vocabulary
  // ---------------------------------------------------------------------------------------

  /** The `status_map` lookup with its default: the platform's status, or "" when absent, to the local one. */
  function MapStatus(s: string): (r: Status)
    ensures r == Paused <==> s == "PAUSED"
    ensures r == Completed <==> s == "ARCHIVED" || s == "DELETED"
    ensures r == Active <==> s != "PAUSED" && s != "ARCHIVED" && s != "DELETED"
  {
    if s == "ACTIVE" then Active
    else if s == "PAUSED" then Paused
    else if s == "ARCHIVED" || s == "DELETED" then Completed
    else Active
  }
}

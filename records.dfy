/**
 * Record assembly (`fetch_main`, `fetch_repo`, `fetch_user`,
 * `correct_formatting`): the API's JSON reply is shaped into one record
 * per kind of entity, and every empty-string value becomes None.
 */
module Records {
  import opened Wrappers
  import opened Text
  import opened LanguageStats

  /** A scalar JSON value as Python holds it after `json()`. */
  datatype Json = JNull | JStr(s: string) | JInt(i: int) | JBool(b: bool)

  /** Python's `str(v)`, as an f-string prints it. */
  function Show(v: Json): string {
    match v
    case JNull => "None"
    case JStr(s) => s
    case JInt(i) => IntToString(i)
    case JBool(b) => if b then "True" else "False"
  }

  /**
   * The keys of the API's JSON object that the code reads. User and
   * organization replies fill the first group, repository replies the
   * second (`owner.*`, `license.name`, `parent.html_url`); `license` is
   * None when the object is null.
   */
  datatype Info = Info(
    login: Json, avatarUrl: Json, bio: Json, blog: Json, email: Json, location: Json,
    publicRepos: Json, publicGists: Json, followers: Json, following: Json,
    kind: Json, company: Json,
    name: Json, htmlUrl: Json, createdAt: string,
    ownerLogin: Json, ownerAvatarUrl: Json, description: Json, homepage: Json,
    stars: Json, watchers: Json, forks: Json, archived: bool,
    license: Option<Json>, fork: bool, parentHtmlUrl: Json)

  /** The reply of `api_call`: a status code, and the JSON body when it is 200. */
  datatype ApiResponse = ApiResponse(status: int, info: Info)

  /** The keys shared by every kind of record. */
  datatype Common = Common(image: Json, description: Json, website: Json, name: Json, githubUrl: Json, createdAt: Json)

  /** The dict `fetch_main` returns, one variant per value of its `type` key. */
  datatype Record =
    | User(common: Common, username: Json, email: Json, location: Json, publicRepos: Json,
           publicGists: Json, followers: Json, following: Json, company: Json)
    | Organization(common: Common, username: Json, email: Json, location: Json, publicRepos: Json,
                   publicGists: Json, followers: Json, following: Json)
    | Repo(common: Common, owner: Json, stars: Json, watchers: Json, forks: Json, archived: bool,
           license: Json, forkedParent: Option<Json>, languages: Languages)

  /** What `fetch_main` returns: a status code, a record, None, or an exception it raises. */
  datatype FetchOutcome = Failed(code: int) | Fetched(record: Record) | NoRecord | Raised

  /** The value of the `type` key. */
  function TypeName(r: Record): string {
    match r
    case User(_, _, _, _, _, _, _, _, _) => "User"
    case Organization(_, _, _, _, _, _, _, _) => "Organization"
    case Repo(_, _, _, _, _, _, _, _, _) => "Repo"
  }

  const BASE_URL := "https://api.github.com/"

  /** A target names a repository iff it contains a slash. */
  predicate IsRepo(name: string) {
    '/' in name
  }

  /** The URL `api_call` requests for a target. */
  function ApiUrl(name: string): (url: string)
    ensures |url| == |BASE_URL| + 6 + |name|
    ensures url[..|BASE_URL|] == BASE_URL && url[|url| - |name|..] == name
    ensures url[|BASE_URL|..|BASE_URL| + 6] == "repos/" <==> IsRepo(name)
    ensures !IsRepo(name) ==> url[|BASE_URL|..|BASE_URL| + 6] == "users/"
  {
    BASE_URL + (if IsRepo(name) then "repos/" else "users/") + name
  }

  /** The per-value rule of `correct_formatting`. */
  function Normalize(v: Json): (r: Json)
    ensures v == JStr("") ==> r == JNull
    ensures v != JStr("") ==> r == v
  {
    if v == JStr("") then JNull else v
  }

  /**
   * The dict view of a record: its keys, in the order `fetch_main`
   * builds them, with their values. The `languages` value is a nested
   * dict or a status code and has no place among the scalars; it is
   * treated apart.
   */
  function Fields(r: Record): seq<(string, Json)> {
    var c := r.common;
    match r
    case User(_, username, email, location, repos, gists, followers, following, company) =>
      [("image", c.image), ("description", c.description), ("website", c.website),
       ("username", username), ("email", email), ("location", location), ("public_repos", repos),
       ("public_gists", gists), ("followers", followers), ("following", following), ("type", JStr("User")),
       ("name", c.name), ("github_url", c.githubUrl), ("created_at", c.createdAt), ("company", company)]
    case Organization(_, username, email, location, repos, gists, followers, following) =>
      [("image", c.image), ("description", c.description), ("website", c.website),
       ("username", username), ("email", email), ("location", location), ("public_repos", repos),
       ("public_gists", gists), ("followers", followers), ("following", following), ("type", JStr("Organization")),
       ("name", c.name), ("github_url", c.githubUrl), ("created_at", c.createdAt)]
    case Repo(_, owner, stars, watchers, forks, archived, license, parent, _) =>
      var fields := [("image", c.image), ("description", c.description), ("website", c.website),
       ("type", JStr("Repo")), ("name", c.name), ("github_url", c.githubUrl), ("created_at", c.createdAt),
       ("owner", owner), ("stars", stars), ("watchers", watchers), ("forks", forks),
       ("archived", JBool(archived)), ("license", license)];
      if parent.Some? then fields + [("forked_parent", parent.value)] else fields
  }

  /** `correct_formatting` on a dict: `{k: v if v != '' else None}`. */
  function NormalizeAll(d: seq<(string, Json)>): (r: seq<(string, Json)>)
    ensures Keys(r) == Keys(d)
    ensures forall i :: 0 <= i < |d| ==> (r[i].1 == JNull <==> d[i].1 == JNull || d[i].1 == JStr(""))
    ensures forall i :: 0 <= i < |d| && d[i].1 != JStr("") ==> r[i].1 == d[i].1
    ensures forall i :: 0 <= i < |d| ==> r[i].1 != JStr("")
  {
    seq(|d|, i requires 0 <= i < |d| => (d[i].0, Normalize(d[i].1)))
  }

  lemma NormalizeAllIdempotent(d: seq<(string, Json)>)
    ensures NormalizeAll(NormalizeAll(d)) == NormalizeAll(d)
  {
  }

  /** No value of the record is the empty string. */
  predicate Normalized(r: Record) {
    forall i :: 0 <= i < |Fields(r)| ==> Fields(r)[i].1 != JStr("")
  }

  function NormalizeCommon(c: Common): Common {
    Common(Normalize(c.image), Normalize(c.description), Normalize(c.website),
           Normalize(c.name), Normalize(c.githubUrl), Normalize(c.createdAt))
  }

  /** `correct_formatting` applied to a record. */
  function CorrectFormatting(r: Record): (n: Record)
    ensures TypeName(n) == TypeName(r)
    ensures n.Repo? ==> n.archived == r.archived && n.languages == r.languages
    ensures n.Repo? ==> n.forkedParent.Some? == r.forkedParent.Some?
  {
    match r
    case User(c, username, email, location, repos, gists, followers, following, company) =>
      User(NormalizeCommon(c), Normalize(username), Normalize(email), Normalize(location), Normalize(repos),
           Normalize(gists), Normalize(followers), Normalize(following), Normalize(company))
    case Organization(c, username, email, location, repos, gists, followers, following) =>
      Organization(NormalizeCommon(c), Normalize(username), Normalize(email), Normalize(location),
                   Normalize(repos), Normalize(gists), Normalize(followers), Normalize(following))
    case Repo(c, owner, stars, watchers, forks, archived, license, parent, languages) =>
      Repo(NormalizeCommon(c), Normalize(owner), Normalize(stars), Normalize(watchers), Normalize(forks),
           archived, Normalize(license),
           if parent.Some? then Some(Normalize(parent.value)) else None, languages)
  }

  /** Formatting a record does to its dict view exactly what the dict comprehension does. */
  lemma CorrectFormattingFields(r: Record)
    ensures Fields(CorrectFormatting(r)) == NormalizeAll(Fields(r))
  {
    var f, g := Fields(r), Fields(CorrectFormatting(r));
    var h := NormalizeAll(f);
    assert |g| == |f| == |h|;
    if r.User? {
      assert |f| == 15;
    } else if r.Organization? {
      assert |f| == 14;
    } else {
      assert |f| == if r.forkedParent.Some? then 14 else 13;
    }
    forall i | 0 <= i < |f| ensures g[i] == h[i] {
      FieldNormalized(r, i);
    }
  }

  /** One key of the dict view: formatting the record formats its value. */
  lemma FieldNormalized(r: Record, i: nat)
    requires i < |Fields(r)|
    ensures |Fields(CorrectFormatting(r))| == |Fields(r)|
    ensures Fields(CorrectFormatting(r))[i] == (Fields(r)[i].0, Normalize(Fields(r)[i].1))
  {
  }

  /** After `correct_formatting` no value is the empty string. */
  lemma CorrectFormattingNormalizes(r: Record)
    ensures Normalized(CorrectFormatting(r))
  {
    CorrectFormattingFields(r);
  }

  lemma CorrectFormattingIdempotent(r: Record)
    ensures CorrectFormatting(CorrectFormatting(r)) == CorrectFormatting(r)
  {
  }

  /** `created_at[:10]`: the first ten characters, or all of a shorter string. */
  function DatePrefix(s: string): (p: string)
    ensures |p| == if |s| < 10 then |s| else 10
    ensures p == s[..|p|]
  {
    if |s| <= 10 then s else s[..10]
  }

  /** `fetch_main` (ghfetch/main.py:69-102) given the replies to its two requests. */
  function FetchMain(name: string, resp: ApiResponse, langResp: LangResponse): (r: FetchOutcome)
    ensures r.Failed? <==> resp.status in {401, 404, 429}
    ensures r.Failed? ==> r.code == resp.status
    ensures resp.status != 200 && resp.status !in {401, 404, 429} ==> r.Raised?
    ensures r.Fetched? ==> resp.status == 200 && Normalized(r.record)
    ensures r.Fetched? ==> (TypeName(r.record) == "Repo" <==> IsRepo(name))
    ensures r.Fetched? && IsRepo(name) ==> (r.record.forkedParent.Some? <==> resp.info.fork)
    ensures r.Fetched? && IsRepo(name) ==> (r.record.license == JNull <==>
              resp.info.license.None? || resp.info.license.value in {JNull, JStr("")})
    ensures r.Fetched? ==> r.record.common.createdAt == Normalize(JStr(DatePrefix(resp.info.createdAt)))
    ensures resp.status == 200 && IsRepo(name) ==>
              (r.Raised? <==> LanguagesStat(langResp).DivisionByZero?)
    ensures resp.status == 200 && !IsRepo(name) ==>
              (r.NoRecord? <==> resp.info.kind !in {JStr("User"), JStr("Organization")})
    ensures resp.status == 200 && !IsRepo(name) && r.Fetched? ==>
              JStr(TypeName(r.record)) == resp.info.kind
    ensures resp.status == 200 && IsRepo(name) && !LanguagesStat(langResp).DivisionByZero? ==> r.Fetched?
    ensures resp.status == 200 && !IsRepo(name) && resp.info.kind in {JStr("User"), JStr("Organization")} ==> r.Fetched?
    ensures r.Fetched? ==> r.record.common == NormalizeCommon(Common(
              if IsRepo(name) then resp.info.ownerAvatarUrl else resp.info.avatarUrl,
              if IsRepo(name) then resp.info.description else resp.info.bio,
              if IsRepo(name) then resp.info.homepage else resp.info.blog,
              resp.info.name, resp.info.htmlUrl, JStr(DatePrefix(resp.info.createdAt))))
    ensures r.Fetched? && IsRepo(name) ==>
              && r.record.languages == LanguagesStat(langResp)
              && r.record.owner == Normalize(resp.info.ownerLogin)
              && r.record.stars == Normalize(resp.info.stars)
              && r.record.watchers == Normalize(resp.info.watchers)
              && r.record.forks == Normalize(resp.info.forks)
              && r.record.archived == resp.info.archived
    ensures r.Fetched? && IsRepo(name) ==>
              r.record.license == Normalize(if resp.info.license.Some? then resp.info.license.value else JNull)
    ensures r.Fetched? && IsRepo(name) && resp.info.fork ==>
              r.record.forkedParent == Some(Normalize(resp.info.parentHtmlUrl))
    ensures r.Fetched? && !IsRepo(name) ==>
              && r.record.username == Normalize(resp.info.login)
              && r.record.email == Normalize(resp.info.email)
              && r.record.location == Normalize(resp.info.location)
              && r.record.publicRepos == Normalize(resp.info.publicRepos)
              && r.record.publicGists == Normalize(resp.info.publicGists)
              && r.record.followers == Normalize(resp.info.followers)
              && r.record.following == Normalize(resp.info.following)
    ensures r.Fetched? && r.record.User? ==> r.record.company == Normalize(resp.info.company)
  {
    var isRepo := IsRepo(name);
    if resp.status != 200 then
      if resp.status in {401, 404, 429} then Failed(resp.status) else Raised
    else
      var info := resp.info;
      var common := Common(
        if isRepo then info.ownerAvatarUrl else info.avatarUrl,
        if isRepo then info.description else info.bio,
        if isRepo then info.homepage else info.blog,
        info.name, info.htmlUrl, JStr(DatePrefix(info.createdAt)));
      if isRepo then
        var languages := LanguagesStat(langResp);
        if languages.DivisionByZero? then Raised
        else
          CorrectFormattingNormalizes(Repo(common, info.ownerLogin, info.stars, info.watchers, info.forks,
            info.archived, if info.license.Some? then info.license.value else JNull,
            if info.fork then Some(info.parentHtmlUrl) else None, languages));
          Fetched(CorrectFormatting(Repo(common, info.ownerLogin, info.stars, info.watchers, info.forks,
            info.archived, if info.license.Some? then info.license.value else JNull,
            if info.fork then Some(info.parentHtmlUrl) else None, languages)))
      else if info.kind == JStr("User") then
        CorrectFormattingNormalizes(User(common, info.login, info.email, info.location, info.publicRepos,
          info.publicGists, info.followers, info.following, info.company));
        Fetched(CorrectFormatting(User(common, info.login, info.email, info.location, info.publicRepos,
          info.publicGists, info.followers, info.following, info.company)))
      else if info.kind == JStr("Organization") then
        CorrectFormattingNormalizes(Organization(common, info.login, info.email, info.location, info.publicRepos,
          info.publicGists, info.followers, info.following));
        Fetched(CorrectFormatting(Organization(common, info.login, info.email, info.location, info.publicRepos,
          info.publicGists, info.followers, info.following)))
      else NoRecord
  }
}

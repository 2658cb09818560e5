/** Validation of a deployment request body and the GitHub URL helpers
    (backend/utils/validators.py). */
module Validators {
  import opened Wrappers
  import opened Text
  import Config

  /** A value of the decoded JSON request body, as Python sees it.
      Other stands for null, floats, arrays and objects; it only matters
      whether such a value is truthy. */
  datatype Value = Str(s: string) | Int(i: int) | Bool(b: bool) | Other(truthy: bool)

  type Request = map<string, Value>

  /** The result of `validate_deployment_request`: `(True, None)`,
      `(False, message)`, or a TypeError/AttributeError raised by a check
      that received a value of the wrong type. */
  datatype Outcome = Valid | Invalid(message: string) | TypeFault

  // ---------------------------------------------------------------------
  // Character classes of the regular expressions (ASCII reading of \w)
  // ---------------------------------------------------------------------

  predicate IsWordChar(c: char) {
    ('a' <= c <= 'z') || ('A' <= c <= 'Z') || ('0' <= c <= '9') || c == '_'
  }

  /** `[\w-]` */
  predicate IsOwnerChar(c: char) {
    IsWordChar(c) || c == '-'
  }

  /** `[\w.-]` */
  predicate IsRepoChar(c: char) {
    IsWordChar(c) || c == '.' || c == '-'
  }

  /** `[a-zA-Z0-9-_]`, which is the same class as `[\w-]` read in ASCII. */
  predicate IsNameChar(c: char) {
    ('a' <= c <= 'z') || ('A' <= c <= 'Z') || ('0' <= c <= '9') || c == '-' || c == '_'
  }

  predicate AllOwnerChars(s: string) {
    forall i :: 0 <= i < |s| ==> IsOwnerChar(s[i])
  }

  predicate AllRepoChars(s: string) {
    forall i :: 0 <= i < |s| ==> IsRepoChar(s[i])
  }

  predicate AllNameChars(s: string) {
    forall i :: 0 <= i < |s| ==> IsNameChar(s[i])
  }

  // ---------------------------------------------------------------------
  // is_valid_github_url
  // ---------------------------------------------------------------------

  const GithubPrefix: string := "https://github.com/"

  /** `https://github.com/<owner>/<repo>`. */
  function RepoUrl(owner: string, repo: string): string {
    GithubPrefix + owner + "/" + repo
  }

  /** `url` splits as `https://github.com/` + owner + `/` + repo + suffix,
      the parts the regular expression
      `^https://github\.com/[\w-]+/[\w.-]+(?:\.git)?$` matches. */
  ghost predicate UrlParts(url: string, owner: string, repo: string, suffix: string) {
    && (suffix == "" || suffix == ".git")
    && |owner| > 0 && AllOwnerChars(owner)
    && |repo| > 0 && AllRepoChars(repo)
    && url == GithubPrefix + owner + "/" + repo + suffix
  }

  ghost predicate MatchesGithubUrlPattern(url: string) {
    exists owner, repo, suffix :: UrlParts(url, owner, repo, suffix)
  }

  /** Index of the first '/' of `s`, or |s| when there is none. */
  function SlashIndex(s: string): (k: nat)
    ensures k <= |s|
    ensures k < |s| ==> s[k] == '/'
    ensures forall j :: 0 <= j < k ==> s[j] != '/'
  {
    if s == [] || s[0] == '/' then 0 else 1 + SlashIndex(s[1..])
  }

  /** The scan that decides the pattern: split at the first '/' after the
      prefix (neither character class contains '/'), then check both sides. */
  predicate GithubUrlScan(url: string) {
    && StartsWith(url, GithubPrefix)
    && var rest := url[|GithubPrefix|..];
       var k := SlashIndex(rest);
       && 0 < k < |rest| - 1
       && AllOwnerChars(rest[..k])
       && AllRepoChars(rest[k + 1..])
  }

  /** `is_valid_github_url`: the URL matches the pattern, the optional
      `.git` included. */
  function IsValidGithubUrl(url: string): (valid: bool)
    ensures valid <==> MatchesGithubUrlPattern(url)
  {
    GithubUrlMatchesPattern(url);
    GithubUrlScan(url)
  }

  /** The scan accepts exactly the URLs the pattern matches. */
  lemma GithubUrlMatchesPattern(url: string)
    ensures GithubUrlScan(url) <==> MatchesGithubUrlPattern(url)
  {
    if GithubUrlScan(url) {
      ValidUrlHasParts(url);
    }
    if MatchesGithubUrlPattern(url) {
      var owner, repo, suffix :| UrlParts(url, owner, repo, suffix);
      PartsMakeValidUrl(url, owner, repo, suffix);
    }
  }

  lemma ValidUrlHasParts(url: string)
    requires GithubUrlScan(url)
    ensures MatchesGithubUrlPattern(url)
  {
    var rest := url[|GithubPrefix|..];
    var k := SlashIndex(rest);
    var owner, repo := rest[..k], rest[k + 1..];
    assert rest == owner + "/" + repo;
    assert url == GithubPrefix + rest;
    assert UrlParts(url, owner, repo, "");
  }

  lemma PartsMakeValidUrl(url: string, owner: string, repo: string, suffix: string)
    requires UrlParts(url, owner, repo, suffix)
    ensures GithubUrlScan(url)
  {
    var tail := repo + suffix;
    assert AllRepoChars(tail) by {
      forall i | 0 <= i < |tail| ensures IsRepoChar(tail[i]) {
        if i >= |repo| {
          assert tail[i] == suffix[i - |repo|];
        }
      }
    }
    var rest := owner + "/" + tail;
    assert url == GithubPrefix + rest;
    AfterPrefix(GithubPrefix, rest);
    SlashAfterOwner(owner, tail);
    assert rest[..|owner|] == owner;
    assert rest[|owner| + 1..] == tail;
  }

  /** The first '/' of `owner + "/" + tail` is the one after the owner. */
  lemma SlashAfterOwner(owner: string, tail: string)
    requires AllOwnerChars(owner)
    ensures SlashIndex(owner + "/" + tail) == |owner|
  {
    var s := owner + "/" + tail;
    assert s[|owner|] == '/';
    assert forall i :: 0 <= i < |owner| ==> s[i] == owner[i] && s[i] != '/';
  }

  // ---------------------------------------------------------------------
  // is_valid_name
  // ---------------------------------------------------------------------

  /** `is_valid_name`: one to a hundred letters, digits, '-' or '_'. */
  predicate IsValidName(name: string) {
    |name| > 0 && AllNameChars(name) && |name| <= 100
  }

  /** The name the creation handler gives a request without one,
      `f"{framework}-{stamp}"`, with `stamp` the clock rendered by
      `strftime('%Y%m%d-%H%M%S')`. */
  function DefaultName(framework: string, stamp: string): string {
    framework + "-" + stamp
  }

  /** A rendering of `%Y%m%d-%H%M%S`: eight digits, '-', six digits. */
  predicate IsStamp(stamp: string) {
    |stamp| == 15 && forall i :: 0 <= i < |stamp| ==> if i == 8 then stamp[i] == '-' else '0' <= stamp[i] <= '9'
  }

  /** Every registered framework name is a short run of name characters. */
  lemma RegistryNamesAreNames(name: string)
    requires name in Config.FrameworkNames
    ensures AllNameChars(name) && |name| <= 10
  {
  }

  /** A supported framework written without the Kelvin sign gives a
      default name that passes the rule `is_valid_name` applies to names
      given in the request. */
  lemma DefaultNameIsValid(framework: string, stamp: string)
    requires Config.IsFrameworkSupported(framework) && '\U{212A}' !in framework
    requires IsStamp(stamp)
    ensures IsValidName(DefaultName(framework, stamp))
  {
    var key := Lower(framework);
    RegistryNamesAreNames(key);
    forall i | 0 <= i < |framework| ensures IsNameChar(framework[i]) {
      assert key[i] == LowerChar(framework[i]);
      assert framework[i] != '\U{212A}';
    }
    var n := DefaultName(framework, stamp);
    forall i | 0 <= i < |n| ensures IsNameChar(n[i]) {
      if i < |framework| {
        assert n[i] == framework[i];
      } else if i > |framework| {
        assert n[i] == stamp[i - |framework| - 1];
      }
    }
  }

  /** `flas\u212a` (with the Kelvin sign) lowers to `flask` and passes
      validation, yet its default name breaks the name rule, which the
      handler never applies to a default name. */
  lemma KelvinFlaskDefaultName()
    ensures Config.IsFrameworkSupported("flas\U{212A}")
    ensures !IsValidName(DefaultName("flas\U{212A}", "20240101-120000"))
  {
    assert Lower("flas\U{212A}") == "flask";
    assert DefaultName("flas\U{212A}", "20240101-120000")[4] == '\U{212A}';
  }

  // ---------------------------------------------------------------------
  // validate_deployment_request
  // ---------------------------------------------------------------------

  const RequiredFields: seq<string> := ["type", "framework", "github_url"]

  /** The scan over the required fields: the index of the first field
      missing from `data`, or |fields| when none is missing. */
  function FirstMissingIndex(fields: seq<string>, data: Request): (k: nat)
    ensures k <= |fields|
    ensures forall j :: 0 <= j < k ==> fields[j] in data
    ensures k < |fields| ==> fields[k] !in data
  {
    if fields == [] || fields[0] !in data then 0
    else 1 + FirstMissingIndex(fields[1..], data)
  }

  function MissingFieldMessage(field: string): string {
    "Champ obligatoire manquant: " + field
  }

  function UnsupportedFrameworkMessage(framework: string): string {
    "Framework non supporté: " + framework
  }

  const TypeMessage: string := "Type doit être 'vm' ou 'lxc'"
  const UrlMessage: string := "URL GitHub invalide"
  const CpuMessage: string := "CPU doit être entre 1 et " + NatToString(Config.MaxCpuCores)
  const MemoryMessage: string := "Mémoire doit être entre 512 et " + NatToString(Config.MaxMemoryMb) + " MB"
  const DiskMessage: string := "Disque doit être entre 10 et " + NatToString(Config.MaxDiskGb) + " GB"
  const NameMessage: string := "Nom invalide (caractères alphanumériques et tirets uniquement)"

  /** The integer `isinstance(v, int)` accepts; a bool is an int in Python. */
  function AsInt(v: Value): Option<int> {
    match v
    case Int(i) => Some(i)
    case Bool(b) => Some(if b then 1 else 0)
    case _ => None
  }

  /** Python truthiness of a value. */
  predicate Truthy(v: Value) {
    match v
    case Str(s) => s != ""
    case Int(i) => i != 0
    case Bool(b) => b
    case Other(t) => t
  }

  /** `data.get(key, default)` is an int within [lo, hi]. */
  predicate ResourceWithin(data: Request, key: string, default: int, lo: int, hi: int) {
    var v := if key in data then data[key] else Int(default);
    AsInt(v).Some? && lo <= AsInt(v).value <= hi
  }

  predicate HasRequiredFields(data: Request) {
    "type" in data && "framework" in data && "github_url" in data
  }

  /** The check on the optional name: skipped when the name is absent or
      falsy; a truthy non-string reaches `re.match`, which raises. */
  function NameCheck(data: Request): (r: Outcome)
    ensures "name" !in data || !Truthy(data["name"]) ==> r == Valid
    ensures "name" in data && Truthy(data["name"]) && data["name"].Str? ==>
              r == (if IsValidName(data["name"].s) then Valid else Invalid(NameMessage))
    ensures "name" in data && Truthy(data["name"]) && !data["name"].Str? ==> r == TypeFault
  {
    if "name" !in data || !Truthy(data["name"]) then Valid
    else match data["name"]
      case Str(s) => if IsValidName(s) then Valid else Invalid(NameMessage)
      case _ => TypeFault
  }

  /** What an accepted request is, read as a conjunction in no particular
      order, with the URL judged by its regular expression. */
  ghost predicate AcceptedRequest(data: Request) {
    && HasRequiredFields(data)
    && (data["type"] == Str("vm") || data["type"] == Str("lxc"))
    && data["framework"].Str? && Config.IsFrameworkSupported(data["framework"].s)
    && data["github_url"].Str? && MatchesGithubUrlPattern(data["github_url"].s)
    && ResourceWithin(data, "cpu", 2, 1, Config.MaxCpuCores)
    && ResourceWithin(data, "memory", 2048, 512, Config.MaxMemoryMb)
    && ResourceWithin(data, "disk", 20, 10, Config.MaxDiskGb)
    && ("name" in data && Truthy(data["name"]) ==> data["name"].Str? && IsValidName(data["name"].s))
  }

  /** The request passes the checks that come before the resource limits. */
  ghost predicate PassesIdentityChecks(data: Request) {
    && HasRequiredFields(data)
    && (data["type"] == Str("vm") || data["type"] == Str("lxc"))
    && data["framework"].Str? && Config.IsFrameworkSupported(data["framework"].s)
    && data["github_url"].Str? && MatchesGithubUrlPattern(data["github_url"].s)
  }

  /** `validate_deployment_request`: the checks in their fixed order, the
      first one that fails giving the answer. */
  function ValidateDeploymentRequest(data: Request): (r: Outcome)
    ensures r == Valid <==> AcceptedRequest(data)
    // the first missing required field, in the order type, framework, github_url
    ensures "type" !in data ==> r == Invalid(MissingFieldMessage("type"))
    ensures "type" in data && "framework" !in data ==> r == Invalid(MissingFieldMessage("framework"))
    ensures "type" in data && "framework" in data && "github_url" !in data ==>
              r == Invalid(MissingFieldMessage("github_url"))
    ensures HasRequiredFields(data) && data["type"] != Str("vm") && data["type"] != Str("lxc") ==>
              r == Invalid(TypeMessage)
    ensures HasRequiredFields(data) && (data["type"] == Str("vm") || data["type"] == Str("lxc")) &&
            data["framework"].Str? && !Config.IsFrameworkSupported(data["framework"].s) ==>
              r == Invalid(UnsupportedFrameworkMessage(data["framework"].s))
    ensures HasRequiredFields(data) && (data["type"] == Str("vm") || data["type"] == Str("lxc")) &&
            data["framework"].Str? && Config.IsFrameworkSupported(data["framework"].s) &&
            data["github_url"].Str? && !MatchesGithubUrlPattern(data["github_url"].s) ==>
              r == Invalid(UrlMessage)
    ensures PassesIdentityChecks(data) && !ResourceWithin(data, "cpu", 2, 1, Config.MaxCpuCores) ==>
              r == Invalid(CpuMessage)
    ensures PassesIdentityChecks(data) && ResourceWithin(data, "cpu", 2, 1, Config.MaxCpuCores) &&
            !ResourceWithin(data, "memory", 2048, 512, Config.MaxMemoryMb) ==>
              r == Invalid(MemoryMessage)
    ensures PassesIdentityChecks(data) && ResourceWithin(data, "cpu", 2, 1, Config.MaxCpuCores) &&
            ResourceWithin(data, "memory", 2048, 512, Config.MaxMemoryMb) &&
            !ResourceWithin(data, "disk", 20, 10, Config.MaxDiskGb) ==>
              r == Invalid(DiskMessage)
    // every check before the name passed: the name decides
    ensures PassesIdentityChecks(data) && ResourceWithin(data, "cpu", 2, 1, Config.MaxCpuCores) &&
            ResourceWithin(data, "memory", 2048, 512, Config.MaxMemoryMb) &&
            ResourceWithin(data, "disk", 20, 10, Config.MaxDiskGb) ==>
              r == NameCheck(data)
    // `framework.lower()` and `re.match` raise on a value that is not a string
    ensures HasRequiredFields(data) && (data["type"] == Str("vm") || data["type"] == Str("lxc")) &&
            !data["framework"].Str? ==>
              r == TypeFault
    ensures HasRequiredFields(data) && (data["type"] == Str("vm") || data["type"] == Str("lxc")) &&
            data["framework"].Str? && Config.IsFrameworkSupported(data["framework"].s) &&
            !data["github_url"].Str? ==>
              r == TypeFault
  {
    assert RequiredFields[0] == "type" && RequiredFields[1] == "framework" && RequiredFields[2] == "github_url";
    var k := FirstMissingIndex(RequiredFields, data);
    if k < |RequiredFields| then Invalid(MissingFieldMessage(RequiredFields[k]))
    else if data["type"] != Str("vm") && data["type"] != Str("lxc") then Invalid(TypeMessage)
    else if !data["framework"].Str? then TypeFault
    else if !Config.IsFrameworkSupported(data["framework"].s) then
      Invalid(UnsupportedFrameworkMessage(data["framework"].s))
    else if !data["github_url"].Str? then TypeFault
    else if !IsValidGithubUrl(data["github_url"].s) then Invalid(UrlMessage)
    else if !ResourceWithin(data, "cpu", 2, 1, Config.MaxCpuCores) then Invalid(CpuMessage)
    else if !ResourceWithin(data, "memory", 2048, 512, Config.MaxMemoryMb) then Invalid(MemoryMessage)
    else if !ResourceWithin(data, "disk", 20, 10, Config.MaxDiskGb) then Invalid(DiskMessage)
    else NameCheck(data)
  }

  // ---------------------------------------------------------------------
  // sanitize_github_url and extract_repo_info
  // ---------------------------------------------------------------------

  /** `sanitize_github_url`: one trailing `.git`, if present, is removed. */
  function SanitizeGithubUrl(url: string): (r: string)
    ensures EndsWith(url, ".git") ==> r + ".git" == url
    ensures !EndsWith(url, ".git") ==> r == url
  {
    if EndsWith(url, ".git") then url[..|url| - 4] else url
  }

  /** Appending `.git` and sanitizing gives the URL back, and only one
      suffix is removed. */
  lemma SanitizeUndoesGitSuffix(url: string)
    ensures SanitizeGithubUrl(url + ".git") == url
    ensures SanitizeGithubUrl(url + ".git.git") == url + ".git"
  {
    assert EndsWith(url + ".git", ".git");
    assert EndsWith(url + ".git.git", ".git");
    assert (url + ".git.git")[..|url| + 4] == url + ".git";
  }

  datatype RepoInfo = RepoInfo(owner: string, repo: string)

  /** Length of the longest prefix of `s` made of `[\w-]`. */
  function OwnerSpan(s: string): (k: nat)
    ensures k <= |s| && AllOwnerChars(s[..k])
    ensures k < |s| ==> !IsOwnerChar(s[k])
  {
    if s == [] || !IsOwnerChar(s[0]) then 0
    else
      var k := 1 + OwnerSpan(s[1..]);
      assert forall i :: 1 <= i < k ==> s[..k][i] == s[1..][..k - 1][i - 1];
      k
  }

  /** Length of the longest prefix of `s` made of `[\w.-]`. */
  function RepoSpan(s: string): (k: nat)
    ensures k <= |s| && AllRepoChars(s[..k])
    ensures k < |s| ==> !IsRepoChar(s[k])
  {
    if s == [] || !IsRepoChar(s[0]) then 0
    else
      var k := 1 + RepoSpan(s[1..]);
      assert forall i :: 1 <= i < k ==> s[..k][i] == s[1..][..k - 1][i - 1];
      k
  }

  /** `owner` and `group` are the two groups `re.match` captures with
      `https://github\.com/([\w-]+)/([\w.-]+)`: the match is anchored at the
      start only, and each greedy group runs as far as its class allows. */
  predicate GroupsAt(url: string, owner: string, group: string) {
    var matched := RepoUrl(owner, group);
    && |owner| > 0 && AllOwnerChars(owner)
    && |group| > 0 && AllRepoChars(group)
    && StartsWith(url, matched)
    && (|url| == |matched| || !IsRepoChar(url[|matched|]))
  }

  /** The two groups of the match, computed span by span. */
  function RepoGroups(url: string): Option<(string, string)> {
    if !StartsWith(url, GithubPrefix) then None
    else
      var rest := url[|GithubPrefix|..];
      var k := OwnerSpan(rest);
      if k == 0 || k == |rest| || rest[k] != '/' then None
      else
        var after := rest[k + 1..];
        var m := RepoSpan(after);
        if m == 0 then None else Some((rest[..k], after[..m]))
  }

  /** The spans find exactly the groups the pattern captures. */
  lemma RepoGroupsMatch(url: string, owner: string, group: string)
    ensures RepoGroups(url) == Some((owner, group)) <==> GroupsAt(url, owner, group)
  {
    if RepoGroups(url) == Some((owner, group)) {
      FoundGroupsMatch(url, owner, group);
    }
    if GroupsAt(url, owner, group) {
      MatchedGroupsFound(url, owner, group);
    }
  }

  lemma FoundGroupsMatch(url: string, owner: string, group: string)
    requires RepoGroups(url) == Some((owner, group))
    ensures GroupsAt(url, owner, group)
  {
    var rest := url[|GithubPrefix|..];
    var k := OwnerSpan(rest);
    var after := rest[k + 1..];
    var m := RepoSpan(after);
    PrefixThroughGroup(url, k, m);
    var matched := RepoUrl(owner, group);
    assert |matched| == |GithubPrefix| + k + 1 + m;
    assert |url| > |matched| ==> url[|matched|] == after[m];
  }

  /** The owner span, the slash and `m` more characters after the prefix
      spell out the URL of that owner and repository. */
  lemma PrefixThroughGroup(url: string, k: nat, m: nat)
    requires StartsWith(url, GithubPrefix)
    requires k + 1 + m <= |url| - |GithubPrefix| && url[|GithubPrefix|..][k] == '/'
    ensures var rest := url[|GithubPrefix|..];
            StartsWith(url, RepoUrl(rest[..k], rest[k + 1..][..m]))
  {
    var rest := url[|GithubPrefix|..];
    SliceJoin(rest, k, 1);
    assert rest[k..][..1] == "/";
    SliceJoin(rest, k + 1, m);
    SliceJoin(url, |GithubPrefix|, k + 1 + m);
    assert url[..|GithubPrefix| + (k + 1 + m)] == GithubPrefix + (rest[..k] + "/" + rest[k + 1..][..m]);
  }

  lemma MatchedGroupsFound(url: string, owner: string, group: string)
    requires GroupsAt(url, owner, group)
    ensures RepoGroups(url) == Some((owner, group))
  {
    MatchedPieces(url, owner, group);
    var rest := url[|GithubPrefix|..];
    OwnerSpanOf(rest, owner);
    RepoSpanOf(rest[|owner| + 1..], group);
  }

  /** A matching URL, read piece by piece: the prefix, the owner, the
      slash and the repository name. */
  lemma MatchedPieces(url: string, owner: string, group: string)
    requires GroupsAt(url, owner, group)
    ensures StartsWith(url, GithubPrefix)
    ensures var rest := url[|GithubPrefix|..];
            && |owner| < |rest| && rest[..|owner|] == owner && rest[|owner|] == '/'
            && var after := rest[|owner| + 1..];
               && |group| <= |after| && after[..|group|] == group
               && (|group| < |after| ==> !IsRepoChar(after[|group|]))
  {
    var matched := GithubPrefix + owner + "/" + group;
    assert url[..|matched|] == matched;
    assert forall i :: 0 <= i < |matched| ==> url[i] == matched[i];
    assert url[..|GithubPrefix|] == GithubPrefix;
    var rest := url[|GithubPrefix|..];
    assert rest[..|owner|] == owner;
    var after := rest[|owner| + 1..];
    assert after[..|group|] == group;
    assert |after| > |group| ==> after[|group|] == url[|matched|];
  }

  lemma OwnerSpanOf(s: string, owner: string)
    requires |owner| < |s| && s[..|owner|] == owner && AllOwnerChars(owner) && !IsOwnerChar(s[|owner|])
    ensures OwnerSpan(s) == |owner|
  {
    var k := OwnerSpan(s);
    assert forall i :: 0 <= i < |owner| ==> s[i] == owner[i];
    assert forall i :: 0 <= i < k ==> s[i] == s[..k][i];
  }

  lemma RepoSpanOf(s: string, group: string)
    requires |group| <= |s| && s[..|group|] == group && AllRepoChars(group)
    requires |group| < |s| ==> !IsRepoChar(s[|group|])
    ensures RepoSpan(s) == |group|
  {
    var k := RepoSpan(s);
    assert forall i :: 0 <= i < |group| ==> s[i] == group[i];
    assert forall i :: 0 <= i < k ==> s[i] == s[..k][i];
  }

  /** `extract_repo_info` as written: the owner group, and the repo group
      with every `.git` in it deleted (`str.replace('.git', '')`). */
  function ExtractRepoInfo(url: string): (info: Option<RepoInfo>)
    ensures info.Some? <==> RepoGroups(url).Some?
    ensures info.Some? ==> info.value.owner == RepoGroups(url).value.0 &&
                           info.value.repo == RemoveAll(RepoGroups(url).value.1, ".git")
  {
    match RepoGroups(url)
    case None => None
    case Some((owner, group)) => Some(RepoInfo(owner, RemoveAll(group, ".git")))
  }

  /** `extract_repo_info` as its comment and tests intend: only a trailing
      `.git` is removed from the repo group. */
  function ExtractRepoInfoStrippingSuffix(url: string): (info: Option<RepoInfo>)
    ensures info.Some? <==> RepoGroups(url).Some?
    ensures info.Some? ==> info.value.owner == RepoGroups(url).value.0
    ensures info.Some? ==> var group := RepoGroups(url).value.1;
              if EndsWith(group, ".git") then info.value.repo + ".git" == group
              else info.value.repo == group
  {
    match RepoGroups(url)
    case None => None
    case Some((owner, group)) => Some(RepoInfo(owner, SanitizeGithubUrl(group)))
  }

  // ---------------------------------------------------------------------
  // Concrete cases
  // ---------------------------------------------------------------------

  /** The URLs the repository's unit tests accept
      (`https://github.com/user/repo.git` and `https://github.com/user/repo`). */
  lemma AcceptedGithubUrls()
    ensures IsValidGithubUrl(RepoUrl("user", "repo.git"))
    ensures IsValidGithubUrl(RepoUrl("user", "repo"))
  {
    assert RepoUrl("user", "repo.git") + "" == RepoUrl("user", "repo.git");
    PartsMakeValidUrl(RepoUrl("user", "repo.git"), "user", "repo.git", "");
    assert RepoUrl("user", "repo") + "" == RepoUrl("user", "repo");
    PartsMakeValidUrl(RepoUrl("user", "repo"), "user", "repo", "");
  }

  /** The URLs the repository's unit tests reject. */
  lemma RejectedGithubUrls()
    ensures !IsValidGithubUrl("https://gitlab.com/user/repo")
    ensures !IsValidGithubUrl("not-a-url")
    ensures !IsValidGithubUrl("https://github.com/repo")
  {
    assert "https://gitlab.com/user/repo"[..|GithubPrefix|][11] != GithubPrefix[11];
    MissingOwnerRejected();
  }

  lemma MissingOwnerRejected()
    ensures !IsValidGithubUrl("https://github.com/repo")
  {
    AfterPrefix(GithubPrefix, "repo");
    assert "https://github.com/repo" == GithubPrefix + "repo";
    assert SlashIndex("repo") == 4 by {
      assert forall i :: 0 <= i < 4 ==> "repo"[i] != '/';
    }
  }

  /** The name cases of the repository's unit tests. */
  lemma NameExamples()
    ensures IsValidName("myapp123") && IsValidName("my-app") && IsValidName("my_app")
    ensures !IsValidName("my app") && !IsValidName("my@app")
  {
    assert "my app"[2] == ' ';
    assert "my@app"[2] == '@';
  }

  /** A URL made of an owner and a repository name captures exactly them. */
  lemma GroupsOfRepoUrl(owner: string, group: string)
    requires |owner| > 0 && AllOwnerChars(owner)
    requires |group| > 0 && AllRepoChars(group)
    ensures RepoGroups(RepoUrl(owner, group)) == Some((owner, group))
  {
    var url := RepoUrl(owner, group);
    assert url[..|url|] == url;
    MatchedGroupsFound(url, owner, group);
  }

  /** `extract_repo_info` on the repository's unit test inputs
      (`https://github.com/django/django.git`,
      `https://github.com/facebook/react` and `https://invalid.com/user/repo`). */
  lemma RepoInfoOfDjango()
    ensures ExtractRepoInfo(RepoUrl("django", "django.git")) == Some(RepoInfo("django", "django"))
  {
    GroupsOfRepoUrl("django", "django.git");
    GitSuffixRemoved();
  }

  lemma RepoInfoOfReact()
    ensures ExtractRepoInfo(RepoUrl("facebook", "react")) == Some(RepoInfo("facebook", "react"))
  {
    GroupsOfRepoUrl("facebook", "react");
    NoGitInReact();
  }

  lemma NoGitInReact()
    ensures RemoveAll("react", ".git") == "react"
  {
    assert "react" == "react" + "";
    RemoveAllKeepsClearPrefix("react", "", ".git");
  }

  lemma RepoInfoOfOtherHost()
    ensures ExtractRepoInfo("https://invalid.com/user/repo") == None
  {
    assert "https://invalid.com/user/repo"[..|GithubPrefix|][8] != GithubPrefix[8];
  }

  lemma GitSuffixRemoved()
    ensures RemoveAll("django.git", ".git") == "django"
  {
    assert "django.git" == "django" + ".git";
    RemoveAllKeepsClearPrefix("django", ".git", ".git");
    RemoveAllDropsLeading(".git", "");
  }

  /** `str.replace('.git', '')` also deletes a `.git` inside the repository
      name: the repository `octo.github.io` of
      `https://github.com/octo/octo.github.io` is reported as `octohub.io`. */
  lemma ReplaceDeletesInnerGit()
    ensures ExtractRepoInfo(RepoUrl("octo", "octo.github.io")) == Some(RepoInfo("octo", "octohub.io"))
  {
    GroupsOfRepoUrl("octo", "octo.github.io");
    InnerGitRemoved();
  }

  /** Stripping only the suffix keeps the name `octo.github.io`. */
  lemma SuffixStripKeepsInnerGit()
    ensures ExtractRepoInfoStrippingSuffix(RepoUrl("octo", "octo.github.io")) == Some(RepoInfo("octo", "octo.github.io"))
  {
    GroupsOfRepoUrl("octo", "octo.github.io");
    NoGitSuffix();
  }

  lemma NoGitSuffix()
    ensures !EndsWith("octo.github.io", ".git")
  {
    assert "octo.github.io"[10..][1] != ".git"[1];
  }

  lemma InnerGitRemoved()
    ensures RemoveAll("octo.github.io", ".git") == "octohub.io"
  {
    OctoGithubIoSpelling();
    RemoveAllKeepsClearPrefix("octo", ".git" + "hub.io", ".git");
    RemoveAllDropsLeading(".git", "hub.io");
    NoGitInHubIo();
  }

  lemma OctoGithubIoSpelling()
    ensures "octo.github.io" == "octo" + (".git" + "hub.io")
    ensures "octohub.io" == "octo" + "hub.io"
  {
  }

  lemma NoGitInHubIo()
    ensures RemoveAll("hub.io", ".git") == "hub.io"
  {
    assert "hub.io" == "hub" + ".io";
    RemoveAllKeepsClearPrefix("hub", ".io", ".git");
    assert RemoveAll(".io", ".git") == ".io";
  }
}

/** The administrator workspace of app/admin/page.tsx: the project statistics, the query
    parameters of the project list, the login and logout handlers, and the creation dialog
    with its editable list of sections and the payload it submits. */
module AdminPage {
  import opened Common
  import opened Store
  import opened AdminApi

  const AllStatuses := "all"
  const PasswordMissing := "Please enter password"
  const LoginFailed := "Failed to authenticate"
  const LoggedIn := "Logged in successfully"
  const LoadFailed := "Unable to load projects"
  const NameRequired := "Project name is required"
  const CreateFailed := "Unable to create project"
  const DefaultStatus := "draft"

  // ---------------------------------------------------------------------------------------
  // Statistics.

  datatype Stats = Stats(total: nat, live: nat, draft: nat, offline: nat, template: nat)

  /** `projects.filter((p) => p.status === s).length`. */
  function CountStatus(ps: seq<Project>, s: string): (n: nat)
    ensures n <= |ps|
  {
    if |ps| == 0 then 0 else CountStatus(ps[..|ps| - 1], s) + (if ps[|ps| - 1].status == Some(s) then 1 else 0)
  }

  /** The projects whose status is none of the four listed ones (including those without). */
  function CountUnlisted(ps: seq<Project>): nat
  {
    if |ps| == 0 then 0
    else CountUnlisted(ps[..|ps| - 1]) + (if ps[|ps| - 1].status in {Some("live"), Some("draft"), Some("offline"), Some("template")} then 0 else 1)
  }

  function ComputeStats(ps: seq<Project>): (r: Stats)
    ensures r.total == |ps|
  {
    Stats(|ps|, CountStatus(ps, "live"), CountStatus(ps, "draft"), CountStatus(ps, "offline"), CountStatus(ps, "template"))
  }

  /** Every project is counted under exactly one status or among the unlisted ones, so the four
      counts add up to at most the total. */
  lemma {:induction false} StatsPartition(ps: seq<Project>)
    ensures var r := ComputeStats(ps);
            r.live + r.draft + r.offline + r.template + CountUnlisted(ps) == r.total
    ensures var r := ComputeStats(ps);
            r.live + r.draft + r.offline + r.template <= r.total
  {
    if |ps| > 0 {
      StatsPartition(ps[..|ps| - 1]);
    }
  }

  /** A status count is the number of positions holding exactly that status. */
  lemma {:induction false} CountStatusPositions(ps: seq<Project>, s: string)
    ensures CountStatus(ps, s) == |set i | 0 <= i < |ps| && ps[i].status == Some(s)|
  {
    if |ps| > 0 {
      var n := |ps| - 1;
      var p := ps[..n];
      CountStatusPositions(p, s);
      var before := set i | 0 <= i < n && p[i].status == Some(s);
      var now := set i | 0 <= i < |ps| && ps[i].status == Some(s);
      assert before == set i | 0 <= i < n && ps[i].status == Some(s);
      if ps[n].status == Some(s) {
        assert now == before + {n};
      } else {
        assert now == before;
      }
    }
  }

  // ---------------------------------------------------------------------------------------
  // The list query.

  /** One entry of the list's URLSearchParams: `status=<value>` or `q=<value>`. */
  datatype Param = StatusParam(value: string) | SearchParam(value: string)

  function ParamName(p: Param): string
  {
    match p
    case StatusParam(_) => "status"
    case SearchParam(_) => "q"
  }

  /** The query of the project list: `status` unless the filter is "all", then the
      trimmed search when it is not blank. */
  function QueryParams(statusFilter: string, search: string): (params: seq<Param>)
    ensures |params| <= 2
    ensures forall v :: StatusParam(v) in params <==> statusFilter != AllStatuses && v == statusFilter
    ensures forall v :: SearchParam(v) in params <==> !IsBlank(search) && v == Trim(search)
  {
    var q := Trim(search);
    var params := if statusFilter != AllStatuses then [StatusParam(statusFilter)] else [];
    if |q| > 0 then params + [SearchParam(q)] else params
  }

  // ---------------------------------------------------------------------------------------
  // Section drafts.

  datatype SectionDraft = SectionDraft(title: string, goal: string, prompt: string)

  datatype Field = Title | Goal | Prompt

  const BlankSection := SectionDraft("", "", "")

  /** `{ ...section, [field]: value }`. */
  function WithField(s: SectionDraft, f: Field, v: string): (r: SectionDraft)
    ensures f == Title ==> r == SectionDraft(v, s.goal, s.prompt)
    ensures f == Goal ==> r == SectionDraft(s.title, v, s.prompt)
    ensures f == Prompt ==> r == SectionDraft(s.title, s.goal, v)
  {
    match f
    case Title => s.(title := v)
    case Goal => s.(goal := v)
    case Prompt => s.(prompt := v)
  }

  /** `addSection`: one blank section at the end. */
  function AddedSection(ss: seq<SectionDraft>): (r: seq<SectionDraft>)
    ensures |r| == |ss| + 1 && r[..|ss|] == ss && r[|ss|] == BlankSection
  {
    ss + [BlankSection]
  }

  /** `updateSection`: `prev.map((section, idx) => idx === index ? ... : section)`. */
  function UpdatedSection(ss: seq<SectionDraft>, index: int, f: Field, v: string): (r: seq<SectionDraft>)
    ensures |r| == |ss|
    ensures forall i :: 0 <= i < |ss| && i != index ==> r[i] == ss[i]
    ensures 0 <= index < |ss| ==> r[index] == WithField(ss[index], f, v)
  {
    seq(|ss|, i requires 0 <= i < |ss| => if i == index then WithField(ss[i], f, v) else ss[i])
  }

  /** `removeSection`: `prev.filter((_, idx) => idx !== index)`, read from the end. */
  function RemovedSection(ss: seq<SectionDraft>, index: int): seq<SectionDraft>
  {
    if |ss| == 0 then []
    else RemovedSection(ss[..|ss| - 1], index) + (if |ss| - 1 == index then [] else [ss[|ss| - 1]])
  }

  /** Removing drops exactly the element at `index` and keeps the rest in order; an index
      outside the list removes nothing. */
  lemma {:induction false} RemovedSectionSpec(ss: seq<SectionDraft>, index: int)
    ensures 0 <= index < |ss| ==> RemovedSection(ss, index) == ss[..index] + ss[index + 1..]
    ensures !(0 <= index < |ss|) ==> RemovedSection(ss, index) == ss
  {
    if |ss| > 0 {
      var n := |ss| - 1;
      var p := ss[..n];
      RemovedSectionSpec(p, index);
      if index == n {
        assert RemovedSection(ss, index) == p;
      } else if 0 <= index < n {
        assert p[..index] == ss[..index];
        assert p[index + 1..] + [ss[n]] == ss[index + 1..];
      } else {
        assert p + [ss[n]] == ss;
      }
    }
  }

  // ---------------------------------------------------------------------------------------
  // The creation payload.

  datatype SectionPayload = SectionPayload(title: string, goal: string, prompt: string, orderIndex: nat)

  datatype ProjectPayload = ProjectPayload(
    name: string,
    description: string,
    status: string,
    prototypeUrl: string,
    introScript: string,
    walkthroughContext: string,
    sections: seq<SectionPayload>)

  /** `sections.filter((section) => section.title.trim())`. */
  function KeptSections(ss: seq<SectionDraft>): (r: seq<SectionDraft>)
    ensures |r| <= |ss|
    ensures forall i :: 0 <= i < |r| ==> !IsBlank(r[i].title)
  {
    if |ss| == 0 then []
    else KeptSections(ss[..|ss| - 1]) + (if IsBlank(ss[|ss| - 1].title) then [] else [ss[|ss| - 1]])
  }

  /** The kept sections are exactly the drafts whose title is not blank. */
  lemma {:induction false} KeptSectionsMembers(ss: seq<SectionDraft>, s: SectionDraft)
    ensures s in KeptSections(ss) <==> s in ss && !IsBlank(s.title)
  {
    if |ss| > 0 {
      KeptSectionsMembers(ss[..|ss| - 1], s);
      assert ss == ss[..|ss| - 1] + [ss[|ss| - 1]];
    }
  }

  /** The kept sections, trimmed and numbered from 0. */
  function PayloadSections(ss: seq<SectionDraft>): seq<SectionPayload>
  {
    var kept := KeptSections(ss);
    seq(|kept|, i requires 0 <= i < |kept| =>
      SectionPayload(Trim(kept[i].title), Trim(kept[i].goal), Trim(kept[i].prompt), i))
  }

  /** Every submitted section has a non-empty title with no surrounding whitespace, and the
      order indexes are 0, 1, ..., k - 1. */
  lemma PayloadSectionsSpec(ss: seq<SectionDraft>)
    ensures |PayloadSections(ss)| <= |ss|
    ensures forall i :: 0 <= i < |PayloadSections(ss)| ==>
              && PayloadSections(ss)[i].orderIndex == i
              && PayloadSections(ss)[i].title != ""
              && Trim(PayloadSections(ss)[i].title) == PayloadSections(ss)[i].title
  {
    var kept := KeptSections(ss);
    forall i | 0 <= i < |kept|
      ensures Trim(kept[i].title) != "" && Trim(Trim(kept[i].title)) == Trim(kept[i].title)
    {
      TrimIdempotent(kept[i].title);
    }
  }

  function Payload(name: string, description: string, status: string, prototypeUrl: string,
                   introScript: string, walkthroughContext: string, ss: seq<SectionDraft>): ProjectPayload
  {
    ProjectPayload(Trim(name), Trim(description), status, Trim(prototypeUrl), Trim(introScript),
                   Trim(walkthroughContext), PayloadSections(ss))
  }

  // ---------------------------------------------------------------------------------------
  // The creation dialog.

  class CreateProjectModal {
    var name: string
    var description: string
    var status: string
    var prototypeUrl: string
    var introScript: string
    var walkthroughContext: string
    var sections: seq<SectionDraft>
    var submitting: bool
    var error: Option<string>

    constructor()
      ensures name == "" && description == "" && status == DefaultStatus && prototypeUrl == ""
      ensures introScript == "" && walkthroughContext == "" && sections == []
      ensures !submitting && error.None?
    {
      name, description, status, prototypeUrl := "", "", DefaultStatus, "";
      introScript, walkthroughContext, sections := "", "", [];
      submitting, error := false, None;
    }

    /** The effect on `open`: closing clears every field and the error but keeps the chosen
        status; opening changes nothing. */
    method OnOpenChanged(open: bool)
      modifies this
      ensures !open ==> name == "" && description == "" && prototypeUrl == "" && introScript == ""
                        && walkthroughContext == "" && sections == [] && error.None?
      ensures open ==> name == old(name) && description == old(description) && prototypeUrl == old(prototypeUrl)
                       && introScript == old(introScript) && walkthroughContext == old(walkthroughContext)
                       && sections == old(sections) && error == old(error)
      ensures status == old(status) && submitting == old(submitting)
    {
      if !open {
        name, description, prototypeUrl := "", "", "";
        introScript, walkthroughContext, sections := "", "", [];
        error := None;
      }
    }

    method AddSection()
      modifies this
      ensures sections == AddedSection(old(sections))
      ensures name == old(name) && status == old(status) && error == old(error) && submitting == old(submitting)
      ensures description == old(description) && prototypeUrl == old(prototypeUrl)
      ensures introScript == old(introScript) && walkthroughContext == old(walkthroughContext)
    {
      sections := AddedSection(sections);
    }

    method UpdateSection(index: int, f: Field, v: string)
      modifies this
      ensures sections == UpdatedSection(old(sections), index, f, v)
      ensures name == old(name) && status == old(status) && error == old(error) && submitting == old(submitting)
      ensures description == old(description) && prototypeUrl == old(prototypeUrl)
      ensures introScript == old(introScript) && walkthroughContext == old(walkthroughContext)
    {
      sections := UpdatedSection(sections, index, f, v);
    }

    method RemoveSection(index: int)
      modifies this
      ensures sections == RemovedSection(old(sections), index)
      ensures name == old(name) && status == old(status) && error == old(error) && submitting == old(submitting)
      ensures description == old(description) && prototypeUrl == old(prototypeUrl)
      ensures introScript == old(introScript) && walkthroughContext == old(walkthroughContext)
    {
      sections := RemovedSection(sections, index);
    }

    /** `handleSubmit`, with the reply of the POST as a parameter: a blank name only sets
        the error; otherwise the trimmed payload is sent, and `created` carries the name
        passed to `onCreated` when the request succeeds. */
    method HandleSubmit(reply: Outcome<()>) returns (sent: Option<ProjectPayload>, created: Option<string>)
      modifies this
      ensures IsBlank(old(name)) ==> sent.None? && created.None? && error == Some(NameRequired)
                                     && submitting == old(submitting)
      ensures !IsBlank(old(name)) ==>
                sent == Some(Payload(old(name), old(description), old(status), old(prototypeUrl),
                                     old(introScript), old(walkthroughContext), old(sections)))
                && !submitting
      ensures !IsBlank(old(name)) && reply.Resolved? ==> created == Some(Trim(old(name))) && error.None?
      ensures !IsBlank(old(name)) && reply.Threw? ==>
                created.None? && error == Some(if reply.message != "" then reply.message else CreateFailed)
      ensures name == old(name) && description == old(description) && status == old(status)
      ensures prototypeUrl == old(prototypeUrl) && introScript == old(introScript)
      ensures walkthroughContext == old(walkthroughContext) && sections == old(sections)
    {
      sent, created := None, None;
      if Trim(name) == [] {
        error := Some(NameRequired);
        return;
      }
      submitting := true;
      error := None;
      var payload := Payload(name, description, status, prototypeUrl, introScript, walkthroughContext, sections);
      assert payload.name == Trim(name);
      sent := Some(payload);
      match reply {
        case Resolved(_) =>
          created := Some(payload.name);
        case Threw(message) =>
          error := Some(if message != "" then message else CreateFailed);
      }
      submitting := false;
    }
  }

  // ---------------------------------------------------------------------------------------
  // The page.

  datatype Toast = Toast(success: bool, message: string)

  class Page {
    const storage: TokenStorage
    var password: string
    var authToken: Option<string>
    var projects: seq<Project>
    var loading: bool
    var error: Option<string>
    var statusFilter: string
    var debouncedSearch: string
    var toast: Option<Toast>

    /** Mounting, including the first effect: a truthy stored token signs the page in. */
    constructor(storage: TokenStorage)
      ensures this.storage == storage
      ensures authToken == (if Truthy(storage.GetAdminToken()) then storage.GetAdminToken() else None)
      ensures password == "" && projects == [] && !loading && error.None?
      ensures statusFilter == AllStatuses && debouncedSearch == "" && toast.None?
    {
      this.storage := storage;
      password, projects, loading, error := "", [], false, None;
      statusFilter, debouncedSearch, toast := AllStatuses, "", None;
      var stored := storage.GetAdminToken();
      authToken := if Truthy(stored) then stored else None;
    }

    /** `isAuthenticated`. */
    predicate IsAuthenticated()
      reads this
    {
      Truthy(authToken)
    }

    function CurrentStats(): (r: Stats)
      reads this
      ensures r.total == |projects|
    {
      ComputeStats(projects)
    }

    /** `handleLogin`, with the reply of the check request as a parameter. `tried` is the
        token the request was made with: none when the password is empty. */
    method HandleLogin(reply: Outcome<()>) returns (tried: Option<string>)
      modifies this, storage
      ensures old(password) == "" ==>
                tried.None? && error == Some(PasswordMissing) && loading == old(loading)
                && authToken == old(authToken) && toast == old(toast) && storage.stored == old(storage.stored)
      ensures old(password) != "" ==> tried == Some(old(password)) && !loading
      ensures old(password) != "" && reply.Resolved? ==>
                && authToken == Some(old(password)) && error.None? && toast == Some(Toast(true, LoggedIn))
                && storage.stored == (if storage.hasWindow then Some(old(password)) else old(storage.stored))
      ensures old(password) != "" && reply.Threw? ==>
                var message := if reply.message != "" then reply.message else LoginFailed;
                && authToken == old(authToken) && error == Some(message) && toast == Some(Toast(false, message))
                && storage.stored == old(storage.stored)
      ensures password == old(password) && projects == old(projects)
      ensures statusFilter == old(statusFilter) && debouncedSearch == old(debouncedSearch)
    {
      tried := None;
      if password == "" {
        error := Some(PasswordMissing);
        return;
      }
      loading := true;
      error := None;
      tried := Some(password);
      match reply {
        case Resolved(_) =>
          storage.SetAdminToken(password);
          authToken := Some(password);
          toast := Some(Toast(true, LoggedIn));
        case Threw(message) =>
          var shown := if message != "" then message else LoginFailed;
          error := Some(shown);
          toast := Some(Toast(false, shown));
      }
      loading := false;
    }

    /** `fetchProjects(token, showLoading)`, with the reply of the list request as a
        parameter; `params` is the query string sent. */
    method FetchProjects(showLoading: bool, reply: Outcome<Option<seq<Project>>>) returns (params: seq<Param>)
      modifies this
      ensures params == QueryParams(statusFilter, debouncedSearch)
      ensures reply.Resolved? ==> projects == (if reply.value.Some? then reply.value.value else []) && error.None?
                                  && toast == old(toast)
      ensures reply.Threw? ==>
                var message := if reply.message != "" then reply.message else LoadFailed;
                projects == old(projects) && error == Some(message) && toast == Some(Toast(false, message))
      ensures loading == (if showLoading then false else old(loading))
      ensures authToken == old(authToken) && password == old(password)
      ensures statusFilter == old(statusFilter) && debouncedSearch == old(debouncedSearch)
    {
      var filter, search := statusFilter, debouncedSearch;
      params := QueryParams(filter, search);
      if showLoading {
        loading := true;
      }
      error := None;
      match reply {
        case Resolved(data) =>
          projects := if data.Some? then data.value else [];
        case Threw(message) =>
          var shown := if message != "" then message else LoadFailed;
          error := Some(shown);
          toast := Some(Toast(false, shown));
      }
      if showLoading {
        loading := false;
      }
      assert statusFilter == filter && debouncedSearch == search;
    }

    /** The logout button: forgets the stored and the current token and the password. */
    method Logout()
      modifies this, storage
      ensures authToken.None? && password == "" && !IsAuthenticated()
      ensures storage.GetAdminToken().None?
      ensures projects == old(projects) && statusFilter == old(statusFilter) && debouncedSearch == old(debouncedSearch)
      ensures loading == old(loading) && error == old(error) && toast == old(toast)
    {
      storage.ClearAdminToken();
      authToken := None;
      password := "";
    }
  }
}

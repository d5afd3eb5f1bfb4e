/** The projects page: profit, hours and active count over the project list, the
    per-row profit and status label, and the add-project form. */
module ProjectsPage {
  import opened Wrappers
  import opened FinanceTypes
  import opened NumberInput
  import Text
  import FinanceContext

  /** "Total Hours": Σ hoursSpent. */
  function TotalHours(ps: seq<Project>): real
  {
    if ps == [] then 0.0 else ps[0].hoursSpent + TotalHours(ps[1..])
  }

  lemma {:induction false} TotalHoursAppend(ps: seq<Project>, p: Project)
    ensures TotalHours(ps + [p]) == TotalHours(ps) + p.hoursSpent
  {
    if ps == [] {
      assert ps + [p] == [p];
    } else {
      assert (ps + [p])[1..] == ps[1..] + [p];
      TotalHoursAppend(ps[1..], p);
    }
  }

  /** "Active Projects": the projects whose status is active. */
  function ActiveProjects(ps: seq<Project>): (r: seq<Project>)
    ensures |r| <= |ps|
    ensures forall p :: p in r <==> p in ps && p.status == Active
  {
    if ps == [] then []
    else if ps[0].status == Active then [ps[0]] + ActiveProjects(ps[1..])
    else ActiveProjects(ps[1..])
  }

  lemma {:induction false} ActiveProjectsAppend(ps: seq<Project>, p: Project)
    ensures ActiveProjects(ps + [p]) == ActiveProjects(ps) + (if p.status == Active then [p] else [])
  {
    if ps == [] {
      assert ps + [p] == [p];
    } else {
      assert (ps + [p])[1..] == ps[1..] + [p];
      ActiveProjectsAppend(ps[1..], p);
    }
  }

  /** One row's profit, and the sign the row prints in front of it. */
  function RowProfit(p: Project): real
  {
    p.totalIncome - p.totalCost
  }

  function ProfitPrefix(p: Project): (prefix: string)
    ensures prefix == "+" <==> p.totalIncome >= p.totalCost
    ensures prefix == "" <==> p.totalIncome < p.totalCost
  {
    if RowProfit(p) >= 0.0 then "+" else ""
  }

  /** The "Total Profit" card sums the row profits: it is the dashboard's project profit,
      and if every row shows a "+" it is not negative. */
  lemma {:induction false} TotalProfitOfRows(ps: seq<Project>, ts: seq<Transaction>, cs: seq<Component>)
    ensures FinanceContext.ProjectsProfit(ps) == FinanceContext.SummaryOf(ts, cs, ps).projectsProfit
    ensures (forall i :: 0 <= i < |ps| ==> ProfitPrefix(ps[i]) == "+") ==> FinanceContext.ProjectsProfit(ps) >= 0.0
  {
    if ps != [] {
      TotalProfitOfRows(ps[1..], ts, cs);
      if forall i :: 0 <= i < |ps| ==> ProfitPrefix(ps[i]) == "+" {
        assert ProfitPrefix(ps[0]) == "+";
        assert forall i :: 0 <= i < |ps[1..]| ==> ProfitPrefix(ps[1..][i]) == "+" by {
          forall i | 0 <= i < |ps[1..]| ensures ProfitPrefix(ps[1..][i]) == "+" {
            assert ps[1..][i] == ps[i + 1];
          }
        }
      }
    }
  }

  /** The status as stored. */
  function StatusTag(s: ProjectStatus): string
  {
    match s
    case Active => "active"
    case Completed => "completed"
    case Paused => "paused"
  }

  /** The status badge: the stored tag with its first letter capitalised (the tags
      hold no '-' for the badge to replace). */
  function StatusLabel(s: ProjectStatus): (badge: string)
    ensures |badge| == |StatusTag(s)|
    ensures 'A' <= badge[0] <= 'Z' && badge[1..] == StatusTag(s)[1..]
    ensures '-' !in StatusTag(s)
  {
    var tag := StatusTag(s);
    [Text.UpperChar(tag[0])] + tag[1..]
  }

  /** The badge loses nothing: lower-casing it gives back the stored tag, so different
      statuses show different badges. */
  lemma StatusLabelRoundTrip(s: ProjectStatus, t: ProjectStatus)
    ensures Text.Lower(StatusLabel(s)) == StatusTag(s)
    ensures StatusLabel(s) == StatusLabel(t) ==> s == t
  {
    var tag := StatusTag(s);
    var badge := StatusLabel(s);
    forall i | 0 <= i < |badge| ensures Text.LowerChar(badge[i]) == tag[i] {
      if i > 0 {
        assert badge[i] == tag[i];
      }
    }
    var lowered := Text.Lower(badge);
    assert |lowered| == |tag|;
    assert forall i :: 0 <= i < |tag| ==> lowered[i] == tag[i];
    assert Text.Lower(StatusLabel(t)) == StatusTag(t) by {
      var tagT, badgeT := StatusTag(t), StatusLabel(t);
      forall i | 0 <= i < |badgeT| ensures Text.LowerChar(badgeT[i]) == tagT[i] {
        if i > 0 {
          assert badgeT[i] == tagT[i];
        }
      }
      assert forall i :: 0 <= i < |tagT| ==> Text.Lower(badgeT)[i] == tagT[i];
    }
  }

  /** The add-project form; the three numbers are number inputs. */
  datatype ProjectForm = ProjectForm(
    name: string,
    description: string,
    totalCost: Option<real>,
    totalIncome: Option<real>,
    hoursSpent: Option<real>,
    status: ProjectStatus)

  const BlankProjectForm := ProjectForm("", "", None, None, None, Active)

  /** The project `handleAddProject` adds, started today, or None when the name is blank.
      Blank numbers become 0. */
  function ProjectFromForm(f: ProjectForm, today: Date): (r: Option<Project>)
    ensures r.None? <==> f.name == ""
    ensures r.Some? ==> (r.value.name == f.name && r.value.description == f.description
                         && r.value.totalCost == f.totalCost.GetOr(0.0)
                         && r.value.totalIncome == f.totalIncome.GetOr(0.0)
                         && r.value.hoursSpent == f.hoursSpent.GetOr(0.0)
                         && r.value.status == f.status && r.value.startDate == today)
  {
    if f.name == "" then None
    else
      FloatOrZero(f.totalCost);
      FloatOrZero(f.totalIncome);
      FloatOrZero(f.hoursSpent);
      Some(Project("", f.name, f.description, FloatOr(f.totalCost, 0.0), FloatOr(f.totalIncome, 0.0),
                   FloatOr(f.hoursSpent, 0.0), f.status, today))
  }

  /** `handleAddProject`: a refused form changes nothing; an accepted one appends the
      project, moves the three cards by its figures, and clears the form. */
  method HandleAddProject(store: FinanceContext.FinanceStore, f: ProjectForm, id: string, today: Date)
    returns (accepted: bool, next: ProjectForm)
    modifies store`projects
    ensures accepted <==> f.name != ""
    ensures !accepted ==> store.projects == old(store.projects) && next == f
    ensures accepted ==> store.projects == old(store.projects) + [ProjectFromForm(f, today).value.(id := id)]
    ensures accepted ==> (FinanceContext.ProjectsProfit(store.projects)
                          == FinanceContext.ProjectsProfit(old(store.projects))
                             + (f.totalIncome.GetOr(0.0) - f.totalCost.GetOr(0.0)))
    ensures accepted ==> TotalHours(store.projects) == TotalHours(old(store.projects)) + f.hoursSpent.GetOr(0.0)
    ensures accepted ==> (|ActiveProjects(store.projects)|
                          == |ActiveProjects(old(store.projects))| + (if f.status == Active then 1 else 0))
    ensures accepted ==> next == BlankProjectForm
  {
    var p := ProjectFromForm(f, today);
    if p.None? {
      return false, f;
    }
    var added := p.value.(id := id);
    store.AddProject(p.value, id);
    FinanceContext.ProjectsProfitAppend(old(store.projects), added);
    TotalHoursAppend(old(store.projects), added);
    ActiveProjectsAppend(old(store.projects), added);
    return true, BlankProjectForm;
  }
}

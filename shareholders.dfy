/** The shareholders page. The two remote tables (shareholders and investments) and the
    lists the page shows are fields of one object; every remote call is replaced by an
    outcome parameter saying whether it succeeded. */
module ShareholdersPage {
  import opened Wrappers
  import opened FinanceTypes
  import opened NumberInput

  /** A shareholder row; `totalInvested` is None when the column is null. */
  datatype Shareholder = Shareholder(
    id: string, name: string, designation: string, ownership: real, totalInvested: Option<real>)

  datatype Investment = Investment(
    id: string, shareholderId: string, amount: real, date: Date, description: string)

  /** One entry of the built-in seed list. */
  datatype Founder = Founder(name: string, designation: string, ownership: real)

  const InitialShareholders: seq<Founder> := [
    Founder("MD Sanzim Rahman Khan", "Founder & CEO", 40.0),
    Founder("MD Ali Razin", "Co-Founder & CMO", 20.0),
    Founder("Saadat S Rahman", "CTO", 10.0),
    Founder("Muztahid Durjoy", "CSE, Chief Software Engineer", 10.0),
    Founder("Rubaiayat", "Chief Instructor", 2.0),
    Founder("Dipanjan", "Chief Mechatronics Engineer", 2.0),
    Founder("Dr. Khalilur Rahman", "Advisor", 3.0)
  ]

  /** The rows the seeding inserts, with ids the database assigns; each starts with
      nothing invested. */
  function SeedRows(fs: seq<Founder>, ids: seq<string>): (r: seq<Shareholder>)
    requires |ids| == |fs|
    ensures |r| == |fs|
    ensures forall i :: 0 <= i < |r| ==>
      r[i] == Shareholder(ids[i], fs[i].name, fs[i].designation, fs[i].ownership, Some(0.0))
  {
    if fs == [] then []
    else [Shareholder(ids[0], fs[0].name, fs[0].designation, fs[0].ownership, Some(0.0))]
         + SeedRows(fs[1..], ids[1..])
  }

  /** "Total Investment": Σ total invested, a null total counting as 0. */
  function TotalInvestment(ss: seq<Shareholder>): real
  {
    if ss == [] then 0.0 else ss[0].totalInvested.GetOr(0.0) + TotalInvestment(ss[1..])
  }

  /** "Allocated Ownership": Σ ownership percentage. */
  function TotalOwnership(ss: seq<Shareholder>): real
  {
    if ss == [] then 0.0 else ss[0].ownership + TotalOwnership(ss[1..])
  }

  lemma {:induction false} SeedTotals(fs: seq<Founder>, ids: seq<string>)
    requires |ids| == |fs|
    ensures TotalInvestment(SeedRows(fs, ids)) == 0.0
    ensures TotalOwnership(SeedRows(fs, ids)) == FounderOwnership(fs)
  {
    if fs != [] {
      SeedTotals(fs[1..], ids[1..]);
      assert SeedRows(fs, ids)[1..] == SeedRows(fs[1..], ids[1..]);
    }
  }

  function FounderOwnership(fs: seq<Founder>): real
  {
    if fs == [] then 0.0 else fs[0].ownership + FounderOwnership(fs[1..])
  }

  /** The seed list names seven people holding 87 percent between them, so a freshly
      seeded table shows seven shareholders, 87 percent allocated and nothing invested. */
  lemma SeedFigures(ids: seq<string>)
    requires |ids| == 7
    ensures |InitialShareholders| == 7
    ensures FounderOwnership(InitialShareholders) == 87.0
    ensures |SeedRows(InitialShareholders, ids)| == 7
    ensures TotalOwnership(SeedRows(InitialShareholders, ids)) == 87.0
    ensures TotalInvestment(SeedRows(InitialShareholders, ids)) == 0.0
  {
    var fs := InitialShareholders;
    assert fs[1..][1..] == fs[2..];
    assert fs[2..][1..] == fs[3..];
    assert fs[3..][1..] == fs[4..];
    assert fs[4..][1..] == fs[5..];
    assert fs[5..][1..] == fs[6..];
    assert fs[6..][1..] == [];
    assert FounderOwnership(fs[6..]) == 3.0;
    assert FounderOwnership(fs[4..]) == 7.0;
    assert FounderOwnership(fs[2..]) == 27.0;
    SeedTotals(fs, ids);
  }

  /** Rows of the shareholders table with the given id get a new total invested. */
  function SetTotal(ss: seq<Shareholder>, id: string, total: real): (r: seq<Shareholder>)
    ensures |r| == |ss|
    ensures forall i :: 0 <= i < |ss| ==>
      r[i] == if ss[i].id == id then ss[i].(totalInvested := Some(total)) else ss[i]
  {
    if ss == [] then []
    else [if ss[0].id == id then ss[0].(totalInvested := Some(total)) else ss[0]]
         + SetTotal(ss[1..], id, total)
  }

  /** Rows of the shareholders table whose id differs. */
  function WithoutShareholder(ss: seq<Shareholder>, id: string): (r: seq<Shareholder>)
    ensures |r| <= |ss|
    ensures forall i :: 0 <= i < |r| ==> r[i] in ss && r[i].id != id
    ensures forall i :: 0 <= i < |ss| && ss[i].id != id ==> ss[i] in r
  {
    if ss == [] then []
    else if ss[0].id != id then [ss[0]] + WithoutShareholder(ss[1..], id)
    else WithoutShareholder(ss[1..], id)
  }

  predicate UniqueIds(ss: seq<Shareholder>)
  {
    forall i, j :: 0 <= i < j < |ss| ==> ss[i].id != ss[j].id
  }

  /** With unique ids, raising one shareholder's total from its current value by `amount`
      raises the "Total Investment" card by exactly `amount`. */
  lemma {:induction false} InvestmentRaisesTotal(ss: seq<Shareholder>, k: nat, amount: real)
    requires UniqueIds(ss) && k < |ss|
    ensures TotalInvestment(SetTotal(ss, ss[k].id, ss[k].totalInvested.GetOr(0.0) + amount))
         == TotalInvestment(ss) + amount
  {
    var id, total := ss[k].id, ss[k].totalInvested.GetOr(0.0) + amount;
    var rest := ss[1..];
    assert SetTotal(ss, id, total)[1..] == SetTotal(rest, id, total);
    if k == 0 {
      forall i | 0 <= i < |rest| ensures rest[i].id != id {
        assert rest[i] == ss[i + 1];
      }
      SetTotalAbsent(rest, id, total);
    } else {
      forall i, j | 0 <= i < j < |rest| ensures rest[i].id != rest[j].id {
        assert rest[i] == ss[i + 1] && rest[j] == ss[j + 1];
      }
      assert rest[k - 1] == ss[k];
      InvestmentRaisesTotal(rest, k - 1, amount);
      assert ss[0].id != id;
    }
  }

  lemma {:induction false} SetTotalAbsent(ss: seq<Shareholder>, id: string, total: real)
    requires forall i :: 0 <= i < |ss| ==> ss[i].id != id
    ensures SetTotal(ss, id, total) == ss
  {
    if ss != [] {
      SetTotalAbsent(ss[1..], id, total);
    }
  }

  /** A card's "Investment Timeline": the investments of that shareholder, in table
      order, at most three. */
  function Timeline(invs: seq<Investment>, shareholderId: string): (r: seq<Investment>)
    ensures |r| <= 3
    ensures forall i :: 0 <= i < |r| ==> r[i] in invs && r[i].shareholderId == shareholderId
  {
    var mine := InvestmentsOf(invs, shareholderId);
    if |mine| <= 3 then mine else mine[..3]
  }

  function InvestmentsOf(invs: seq<Investment>, shareholderId: string): (r: seq<Investment>)
    ensures forall v :: v in r <==> v in invs && v.shareholderId == shareholderId
  {
    if invs == [] then []
    else if invs[0].shareholderId == shareholderId then [invs[0]] + InvestmentsOf(invs[1..], shareholderId)
    else InvestmentsOf(invs[1..], shareholderId)
  }

  /** The filter keeps table order: a row added at the end of the table joins the
      shareholder's list at its end, exactly when it is theirs. */
  lemma {:induction false} InvestmentsOfAppend(invs: seq<Investment>, v: Investment, shareholderId: string)
    ensures InvestmentsOf(invs + [v], shareholderId)
         == InvestmentsOf(invs, shareholderId) + (if v.shareholderId == shareholderId then [v] else [])
  {
    if invs == [] {
      assert invs + [v] == [v];
      assert [v][1..] == [];
    } else {
      assert (invs + [v])[0] == invs[0];
      assert (invs + [v])[1..] == invs[1..] + [v];
      InvestmentsOfAppend(invs[1..], v, shareholderId);
    }
  }

  /** The timeline is the first three of the shareholder's investments: a shareholder
      with three or fewer sees them all, and another shareholder's investment never
      shows. */
  lemma TimelineIsPrefix(invs: seq<Investment>, shareholderId: string, other: Investment)
    requires other.shareholderId != shareholderId
    ensures Timeline(invs, shareholderId) == InvestmentsOf(invs, shareholderId)[..|Timeline(invs, shareholderId)|]
    ensures |InvestmentsOf(invs, shareholderId)| <= 3 ==> Timeline(invs, shareholderId) == InvestmentsOf(invs, shareholderId)
    ensures other !in Timeline(invs, shareholderId)
  {
  }

  /** The add-shareholder form; the ownership field is read with `parseFloat(...) || 0`. */
  datatype ShareholderForm = ShareholderForm(name: string, designation: string, ownership: Option<real>)

  /** The add form at mount and after a successful insert: empty texts and an ownership
      of 0. */
  const BlankShareholderForm := ShareholderForm("", "", Some(0.0))

  /** The record-investment form; the amount field is read with `parseFloat(...) || 0`. */
  datatype InvestmentForm = InvestmentForm(amount: Option<real>, date: Date, description: string)

  /** The investment form at mount and after a recorded investment: amount 0, today and
      no description. */
  function BlankInvestmentForm(today: Date): (f: InvestmentForm)
    ensures FloatOr(f.amount, 0.0) == 0.0 && f.date == today && f.description == ""
  {
    InvestmentForm(Some(0.0), today, "")
  }

  class ShareholderBook {
    /** The remote tables. */
    var table: seq<Shareholder>
    var investmentTable: seq<Investment>
    /** What the page shows, as last fetched, and the loading flag. */
    var shareholders: seq<Shareholder>
    var investments: seq<Investment>
    var loading: bool

    /** The page mounts with empty lists and the loading flag up. */
    constructor (table: seq<Shareholder>, investmentTable: seq<Investment>)
      ensures this.table == table && this.investmentTable == investmentTable
      ensures shareholders == [] && investments == [] && loading
    {
      this.table := table;
      this.investmentTable := investmentTable;
      shareholders := [];
      investments := [];
      loading := true;
    }

    /** `fetchData` (with `seedInitialShareholders` when the table is empty). Signed out,
        nothing happens. A failed read changes nothing shown. An empty table is seeded
        (when the insert succeeds) and nothing is shown yet: the seeding's own re-fetch
        is a later call. Otherwise the table is shown, and the investments too when their
        read succeeds. The loading flag is down afterwards in every signed-in case. */
    method FetchData(signedIn: bool, shareholdersOk: bool, investmentsOk: bool,
                     seedOk: bool, seedIds: seq<string>)
      requires |seedIds| == |InitialShareholders|
      modifies this
      ensures !signedIn ==> (table == old(table) && investmentTable == old(investmentTable)
                             && shareholders == old(shareholders) && investments == old(investments)
                             && loading == old(loading))
      ensures signedIn ==> !loading && investmentTable == old(investmentTable)
      ensures signedIn && shareholdersOk && old(table) == [] ==>
        table == (if seedOk then SeedRows(InitialShareholders, seedIds) else [])
      ensures !(signedIn && shareholdersOk && old(table) == []) ==> table == old(table)
      ensures signedIn && shareholdersOk && old(table) != [] ==>
        shareholders == old(table)
        && investments == (if investmentsOk then old(investmentTable) else old(investments))
      ensures !(signedIn && shareholdersOk && old(table) != []) ==>
        shareholders == old(shareholders) && investments == old(investments)
    {
      if !signedIn {
        return;
      }
      loading := true;
      if shareholdersOk {
        if table == [] {
          if seedOk {
            table := SeedRows(InitialShareholders, seedIds);
          }
        } else {
          shareholders := table;
          if investmentsOk {
            investments := investmentTable;
          }
        }
      }
      loading := false;
    }

    /** `handleAddShareholder`: no field is required; the row starts with nothing
        invested. Returns whether the insert went through, and the form: cleared after
        a successful insert, kept as typed otherwise. */
    method AddShareholder(signedIn: bool, form: ShareholderForm, id: string, insertOk: bool)
      returns (added: bool, next: ShareholderForm)
      modifies this`table
      ensures added <==> signedIn && insertOk
      ensures next == if added then BlankShareholderForm else form
      ensures added ==> table == old(table) + [Shareholder(id, form.name, form.designation,
                                                         FloatOr(form.ownership, 0.0), Some(0.0))]
      ensures !added ==> table == old(table)
    {
      if !signedIn || !insertOk {
        return false, form;
      }
      table := table + [Shareholder(id, form.name, form.designation, FloatOr(form.ownership, 0.0), Some(0.0))];
      return true, BlankShareholderForm;
    }

    /** `handleAddInvestment`: nothing without a signed-in user and a selected
        shareholder. The investment row is inserted first; only then is the selected
        shareholder's total set to its total as selected plus the amount. A failed
        update leaves the inserted row in place, and the form is reset (amount 0, today,
        no description) only when both writes went through. */
    method AddInvestment(signedIn: bool, selected: Option<Shareholder>, form: InvestmentForm,
                         today: Date, id: string, insertOk: bool, updateOk: bool)
      returns (recorded: bool, next: InvestmentForm)
      modifies this`table, this`investmentTable
      ensures recorded <==> signedIn && selected.Some? && insertOk && updateOk
      ensures next == if recorded then BlankInvestmentForm(today) else form
      ensures signedIn && selected.Some? && insertOk ==>
        investmentTable == old(investmentTable)
          + [Investment(id, selected.value.id, FloatOr(form.amount, 0.0), form.date, form.description)]
      ensures !(signedIn && selected.Some? && insertOk) ==> investmentTable == old(investmentTable)
      ensures recorded ==>
        table == SetTotal(old(table), selected.value.id,
                          selected.value.totalInvested.GetOr(0.0) + FloatOr(form.amount, 0.0))
      ensures !recorded ==> table == old(table)
    {
      if !signedIn || selected.None? {
        return false, form;
      }
      var s := selected.value;
      if !insertOk {
        return false, form;
      }
      var invested := FloatOr(form.amount, 0.0);
      investmentTable := investmentTable + [Investment(id, s.id, invested, form.date, form.description)];
      if !updateOk {
        return false, form;
      }
      table := SetTotal(table, s.id, s.totalInvested.GetOr(0.0) + invested);
      return true, BlankInvestmentForm(today);
    }

    /** `handleDeleteShareholder`: the row with that id leaves the table; its
        investments stay. */
    method DeleteShareholder(id: string, deleteOk: bool)
      modifies this`table
      ensures table == if deleteOk then WithoutShareholder(old(table), id) else old(table)
    {
      if deleteOk {
        table := WithoutShareholder(table, id);
      }
    }
  }

  /** The new total comes from the snapshot taken when the dialog opened, not from the
      table: if the table has moved on (100 invested, the snapshot still says 50), an
      investment of 10 leaves 60, and the other 50 is lost. */
  lemma StaleSnapshotExample()
    ensures var row := Shareholder("s", "A", "B", 10.0, Some(100.0));
      var snapshot := row.(totalInvested := Some(50.0));
      SetTotal([row], snapshot.id, snapshot.totalInvested.GetOr(0.0) + 10.0)[0].totalInvested == Some(60.0)
  {
  }
}

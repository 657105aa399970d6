// The filter selection algebra shared by MapComponent (the applied selection)
// and FiltersPanel (the pending copy): the "All" sentinel, year normalisation,
// the four-dimension filter, the per-option counts and the list toggles.
module Selections {
  import opened Lists

  /** One project record; an absent title, firm, sector or year is the empty string. */
  datatype Project = Project(
    id: string,        // project_no
    title: string,
    firm: string,      // firm_name
    status: string,
    sector: string,
    year: string,
    province: string,
    lat: real,
    lng: real)

  /** The four filter dimensions; sectors is kept a one-element list by its handlers. */
  datatype Selection = Selection(provinces: seq<string>, statuses: seq<string>, sectors: seq<string>, year: string)

  /** The sentinel meaning "no constraint on this dimension". */
  const All := "All"

  const Unconstrained := Selection([All], [All], [All], All)

  // ---- Year normalisation ----

  /** The characters of s before its first '-'. */
  function BeforeDash(s: string): (r: string)
    ensures |r| <= |s| && r == s[..|r|]
    ensures '-' !in r
    ensures |r| < |s| ==> s[|r|] == '-'
    ensures '-' in s ==> |r| < |s|
  {
    if s == [] || s[0] == '-' then "" else [s[0]] + BeforeDash(s[1..])
  }

  /** The year a project is filed under: "2022-2023" counts as "2022". */
  function NormalizeYear(year: string): (r: string)
    ensures |r| <= |year| && r == year[..|r|] && '-' !in r
    ensures '-' in year ==> |r| < |year| && year[|r|] == '-'
    ensures '-' !in year ==> r == year
  {
    if year == "" then "" else if '-' in year then BeforeDash(year) else year
  }

  lemma NormalizeYearExamples()
    ensures NormalizeYear("2022-2023") == "2022"
    ensures NormalizeYear("2021") == "2021"
    ensures NormalizeYear("") == ""
  {
    assert "2022-2023"[4] == '-';
    assert "2022-2023"[..4] == "2022";
  }

  /** Normalising twice is normalising once. */
  lemma NormalizeYearIdempotent(year: string)
    ensures NormalizeYear(NormalizeYear(year)) == NormalizeYear(year)
  {
  }

  // ---- The filter ----

  /** One list dimension: "All" anywhere in the list, or the value listed. */
  predicate DimMatches(list: seq<string>, value: string)
  {
    All in list || value in list
  }

  predicate YearMatches(year: string, p: Project)
  {
    year == All || year == NormalizeYear(p.year)
  }

  /** filteredProjects' test: all four dimension tests hold. */
  predicate Keeps(sel: Selection, p: Project)
  {
    DimMatches(sel.provinces, p.province) && DimMatches(sel.statuses, p.status)
    && DimMatches(sel.sectors, p.sector) && YearMatches(sel.year, p)
  }

  /** The filter test of a selection, as a function value. */
  function Keeper(sel: Selection): Project -> bool
  {
    (p: Project) => Keeps(sel, p)
  }

  function FilteredProjects(ps: seq<Project>, sel: Selection): (r: seq<Project>)
    ensures |r| <= |ps|
  {
    Filter(Keeper(sel), ps)
  }

  /** The filtered list keeps the order of the data and holds exactly the projects the four tests accept. */
  lemma FilteredProjectsSpec(ps: seq<Project>, sel: Selection)
    ensures IsSubsequence(FilteredProjects(ps, sel), ps)
    ensures forall p :: p in FilteredProjects(ps, sel) <==> p in ps && Keeps(sel, p)
  {
    FilterIsSubsequence(Keeper(sel), ps);
  }

  /** With every dimension at "All" nothing is filtered out. */
  lemma UnconstrainedKeepsAll(ps: seq<Project>)
    ensures FilteredProjects(ps, Unconstrained) == ps
  {
    FilterKeepsAll(Keeper(Unconstrained), ps);
  }

  // ---- Per-option counts ----

  datatype FilterType = ProvinceFilter | StatusFilter | SectorFilter | YearFilter

  /** The selection with one dimension replaced by the option ([option] for a list, option for the year). */
  function Override(sel: Selection, ft: FilterType, option: string): Selection
  {
    match ft
    case ProvinceFilter => sel.(provinces := [option])
    case StatusFilter => sel.(statuses := [option])
    case SectorFilter => sel.(sectors := [option])
    case YearFilter => sel.(year := option)
  }

  /** filteredCount: the number of projects the selection keeps. */
  function FilteredCount(ps: seq<Project>, sel: Selection): (n: nat)
    ensures n <= |ps|
  {
    |FilteredProjects(ps, sel)|
  }

  /** FiltersPanel.getOptionCount: the count had this dimension been set to the option. */
  function OptionCount(ps: seq<Project>, sel: Selection, option: string, ft: FilterType): (n: nat)
    ensures n <= |ps|
  {
    FilteredCount(ps, Override(sel, ft, option))
  }

  /** Every test except the one of dimension ft. */
  predicate KeepsExcept(sel: Selection, ft: FilterType, p: Project)
  {
    (ft == ProvinceFilter || DimMatches(sel.provinces, p.province))
    && (ft == StatusFilter || DimMatches(sel.statuses, p.status))
    && (ft == SectorFilter || DimMatches(sel.sectors, p.sector))
    && (ft == YearFilter || YearMatches(sel.year, p))
  }

  function KeeperExcept(sel: Selection, ft: FilterType): Project -> bool
  {
    (p: Project) => KeepsExcept(sel, ft, p)
  }

  /** The "All" option of a dimension drops that dimension's test. */
  lemma OptionCountAllDropsDimension(ps: seq<Project>, sel: Selection, ft: FilterType)
    ensures OptionCount(ps, sel, All, ft) == |Filter(KeeperExcept(sel, ft), ps)|
  {
    FilterAgree(Keeper(Override(sel, ft, All)), KeeperExcept(sel, ft), ps);
  }

  /** No option of a dimension counts more projects than that dimension's "All". */
  lemma OptionCountAtMostAll(ps: seq<Project>, sel: Selection, ft: FilterType, option: string)
    ensures OptionCount(ps, sel, option, ft) <= OptionCount(ps, sel, All, ft)
  {
    FilterMonotone(Keeper(Override(sel, ft, option)), Keeper(Override(sel, ft, All)), ps);
  }

  /** The panel's total equals the count of the option a dimension is already set to. */
  lemma FilteredCountIsOptionCount(ps: seq<Project>, sel: Selection, ft: FilterType, x: string)
    requires ft == ProvinceFilter ==> sel.provinces == [x]
    requires ft == StatusFilter ==> sel.statuses == [x]
    requires ft == SectorFilter ==> sel.sectors == [x]
    requires ft == YearFilter ==> sel.year == x
    ensures FilteredCount(ps, sel) == OptionCount(ps, sel, x, ft)
  {
    assert Override(sel, ft, x) == sel;
  }

  /** The province, status and sector tests, without the year. */
  function Keeper3(sel: Selection): Project -> bool
  {
    (p: Project) => DimMatches(sel.provinces, p.province) && DimMatches(sel.statuses, p.status) && DimMatches(sel.sectors, p.sector)
  }

  /** MultiSelectDropdown.getOptionCount: the same override over province, status and sector only. */
  function MultiOptionCount(ps: seq<Project>, sel: Selection, ft: FilterType, option: string): (n: nat)
    ensures n <= |ps|
  {
    var s := if ft == YearFilter then sel else Override(sel, ft, option);
    |Filter(Keeper3(s), ps)|
  }

  /** The dropdown's count is the panel's count with the year left unconstrained; a 'year'
      filter type overrides nothing there. */
  lemma MultiOptionCountIsOptionCount(ps: seq<Project>, sel: Selection, ft: FilterType, option: string)
    ensures ft != YearFilter ==> MultiOptionCount(ps, sel, ft, option) == OptionCount(ps, sel.(year := All), option, ft)
    ensures ft == YearFilter ==> MultiOptionCount(ps, sel, ft, option) == FilteredCount(ps, sel.(year := All))
  {
    var s := if ft == YearFilter then sel else Override(sel, ft, option);
    FilterAgree(Keeper3(s), Keeper(s.(year := All)), ps);
    assert ft != YearFilter ==> Override(sel.(year := All), ft, option) == s.(year := All);
  }

  /** The province and status tests alone. */
  function Keeper2(sel: Selection): Project -> bool
  {
    (p: Project) => DimMatches(sel.provinces, p.province) && DimMatches(sel.statuses, p.status)
  }

  /** The province and status tests and an exact sector. */
  function SectorKeeper(sel: Selection, sector: string): Project -> bool
  {
    (p: Project) => DimMatches(sel.provinces, p.province) && DimMatches(sel.statuses, p.status) && p.sector == sector
  }

  /** The province and status tests and an exact normalised year. */
  function YearKeeper(sel: Selection, year: string): Project -> bool
  {
    (p: Project) => DimMatches(sel.provinces, p.province) && DimMatches(sel.statuses, p.status) && NormalizeYear(p.year) == year
  }

  /** SingleSelectDropdown.getOptionCount: "All" counts by province and status; the 'Sector' and
      'Year' dropdowns add an exact test on that field; any other heading counts 0. */
  function SingleOptionCount(ps: seq<Project>, sel: Selection, heading: string, option: string): (n: nat)
    ensures n <= |ps|
    ensures option != All && heading != "Sector" && heading != "Year" ==> n == 0
  {
    if option == All then |Filter(Keeper2(sel), ps)|
    else if heading == "Sector" then |Filter(SectorKeeper(sel, option), ps)|
    else if heading == "Year" then |Filter(YearKeeper(sel, option), ps)|
    else 0
  }

  /** For a concrete option the single-select count is the panel's count with the sector and year
      constraints replaced by the option, and never exceeds the dropdown's "All" count. */
  lemma SingleOptionCountIsOptionCount(ps: seq<Project>, sel: Selection, heading: string, option: string)
    requires option != All
    ensures heading == "Sector" ==> SingleOptionCount(ps, sel, heading, option) == OptionCount(ps, sel.(sectors := [All], year := All), option, SectorFilter)
    ensures heading == "Year" ==> SingleOptionCount(ps, sel, heading, option) == OptionCount(ps, sel.(sectors := [All], year := All), option, YearFilter)
    ensures SingleOptionCount(ps, sel, heading, option) <= SingleOptionCount(ps, sel, heading, All)
  {
    var base := sel.(sectors := [All], year := All);
    if heading == "Sector" {
      FilterAgree(SectorKeeper(sel, option), Keeper(Override(base, SectorFilter, option)), ps);
      FilterMonotone(SectorKeeper(sel, option), Keeper2(sel), ps);
    } else if heading == "Year" {
      FilterAgree(YearKeeper(sel, option), Keeper(Override(base, YearFilter, option)), ps);
      FilterMonotone(YearKeeper(sel, option), Keeper2(sel), ps);
    }
  }

  // ---- List toggles ----

  /** The shape every province or status list keeps: exactly ["All"], or distinct concrete values. */
  predicate WellFormed(l: seq<string>)
  {
    l == [All] || (|l| > 0 && All !in l && NoDup(l))
  }

  /** The concrete values a list selects. */
  function Concrete(l: seq<string>): set<string>
  {
    set x | x in l && x != All
  }

  /** On a well-formed list "All" is exclusive: the list is ["All"] exactly when it selects no concrete value. */
  lemma AllIsExclusive(l: seq<string>)
    requires WellFormed(l)
    ensures l == [All] <==> Concrete(l) == {}
  {
    if l != [All] {
      assert l[0] in Concrete(l);
    }
  }

  /** handlePendingProvinceChange / handlePendingStatusChange on the previous list. */
  function Toggle(prev: seq<string>, v: string): (r: seq<string>)
    ensures |r| > 0
    ensures v == All ==> r == [All]
    ensures v != All && v in prev ==> v !in r
    ensures v != All && v !in prev ==> v in r
  {
    if v == All then [All]
    else if v in prev then
      var next := Remove(prev, v);
      if |next| == 0 then [All] else next
    else if |prev| > 0 && prev[0] == All then [v]
    else prev + [v]
  }

  /** The three cases on a well-formed list: "All" resets, a present value is removed (the
      empty list becoming ["All"]), an absent value replaces "All" or is appended. */
  lemma ToggleCases(prev: seq<string>, v: string)
    requires WellFormed(prev)
    ensures v == All ==> Toggle(prev, v) == [All]
    ensures v != All && v in prev ==> Toggle(prev, v) == (if Remove(prev, v) == [] then [All] else Remove(prev, v))
    ensures v != All && v !in prev && prev == [All] ==> Toggle(prev, v) == [v]
    ensures v != All && v !in prev && prev != [All] ==> Toggle(prev, v) == prev + [v]
  {
  }

  /** Toggling keeps a list well formed. */
  lemma ToggleKeepsWellFormed(prev: seq<string>, v: string)
    requires WellFormed(prev)
    ensures WellFormed(Toggle(prev, v))
  {
    if v != All && v in prev {
      RemoveNoDup(prev, v);
    } else if v != All && prev != [All] {
      forall i, j | 0 <= i < j < |prev + [v]| ensures (prev + [v])[i] != (prev + [v])[j] {
        if j == |prev| { assert (prev + [v])[i] == prev[i]; }
      }
    }
  }

  /** On a well-formed list, toggling a concrete value flips exactly that value in or out of the selection. */
  lemma ToggleFlips(prev: seq<string>, v: string)
    requires WellFormed(prev) && v != All
    ensures Concrete(Toggle(prev, v)) == if v in prev then Concrete(prev) - {v} else Concrete(prev) + {v}
  {
    var r := Toggle(prev, v);
    if v in prev {
      if Remove(prev, v) == [] {
        forall x | x in Concrete(prev) ensures x == v {
          assert x in prev && x !in Remove(prev, v);
        }
      }
    } else if prev == [All] {
      assert Concrete(prev) == {};
    } else {
      assert All !in prev;
    }
  }

  /** Toggling an absent concrete value twice gives back the original list. */
  lemma ToggleTwice(prev: seq<string>, v: string)
    requires WellFormed(prev) && v != All && v !in prev
    ensures Toggle(Toggle(prev, v), v) == prev
  {
    if prev == [All] {
      assert Toggle(prev, v) == [v];
      assert Remove([v], v) == [];
    } else {
      var once := prev + [v];
      assert Toggle(prev, v) == once;
      RemoveConcat(prev, [v], v);
      RemoveAbsent(prev, v);
      assert Remove([v], v) == [];
      assert Remove(once, v) == prev;
    }
  }

  /** MultiSelectDropdown.handleCheckboxChange: drops "All" instead of testing the head of the list. */
  function CheckboxToggle(prev: seq<string>, v: string): (r: seq<string>)
    ensures |r| > 0
  {
    if v == All then [All]
    else if v in prev then
      var next := Remove(prev, v);
      if |next| == 0 then [All] else next
    else Remove(prev, All) + [v]
  }

  /** On well-formed lists the dropdown's checkbox toggle and the panel's toggle agree,
      so the checkbox toggle keeps lists well formed too. */
  lemma CheckboxToggleAgrees(prev: seq<string>, v: string)
    requires WellFormed(prev)
    ensures CheckboxToggle(prev, v) == Toggle(prev, v)
    ensures WellFormed(CheckboxToggle(prev, v))
  {
    ToggleKeepsWellFormed(prev, v);
    if v != All && v !in prev {
      if prev == [All] {
        assert Remove([All], All) == [];
      } else {
        RemoveAbsent(prev, All);
      }
    }
  }

  /** A list that is ["All"] plus something else: the two toggles part ways there. */
  lemma TogglesDifferOffShape()
    ensures CheckboxToggle([All, "Ilocos Sur"], "La Union") == ["Ilocos Sur", "La Union"]
    ensures Toggle([All, "Ilocos Sur"], "La Union") == ["La Union"]
  {
    var l: seq<string> := [All, "Ilocos Sur"];
    assert l[1..] == ["Ilocos Sur"] && ["Ilocos Sur"][1..] == [];
    assert Filter(NotEqualTo(All), ["Ilocos Sur"]) == ["Ilocos Sur"];
    assert Remove(l, All) == ["Ilocos Sur"];
  }

  // ---- Handlers that write the applied selection ----

  /** handleProvinceChange / handleStatusChange: an empty list means "All". */
  function EmptyToAll(list: seq<string>): (r: seq<string>)
    ensures |r| > 0
    ensures list != [] ==> r == list
    ensures list == [] ==> r == [All]
  {
    if |list| == 0 then [All] else list
  }

  /** handleSectorChange (and handlePendingSectorChange against the applied sectors): clicking the
      single current sector clears it, anything else selects that one sector. */
  function SectorChange(current: seq<string>, sector: string): (r: seq<string>)
    ensures |r| == 1
    ensures r == [All] <==> current == [sector] || sector == All
    ensures r != [All] ==> r == [sector]
  {
    var shouldReset := |current| == 1 && current[0] == sector;
    if shouldReset then [All] else [sector]
  }

  /** The sector handler is a one-value toggle: it selects the clicked sector unless that
      sector was the one selected. */
  lemma SectorChangeToggles(current: seq<string>, sector: string)
    requires |current| == 1
    ensures Concrete(SectorChange(current, sector)) == if sector == All || sector in current then {} else {sector}
    ensures WellFormed(SectorChange(current, sector))
  {
    var r := SectorChange(current, sector);
    if sector != All && sector !in current {
      assert r == [sector];
      assert Concrete(r) == {sector};
    } else {
      assert r == [All];
      assert Concrete(r) == {};
    }
  }

  /** Removing an applied province or status chip (FiltersPanel.jsx:995-996, then the change handler). */
  function RemoveChip(list: seq<string>, v: string): (r: seq<string>)
    ensures |r| > 0
    ensures v != All ==> v !in r
  {
    EmptyToAll(EmptyToAll(Remove(list, v)))
  }

  /** On a well-formed list, removing the chip of a selected concrete value is the toggle of that value. */
  lemma RemoveChipIsToggle(list: seq<string>, v: string)
    requires WellFormed(list) && v != All && v in list
    ensures RemoveChip(list, v) == Toggle(list, v)
  {
  }

  /** The sectors applyFilters leaves applied: the sector handler runs only when the heads differ. */
  function AppliedSectors(applied: seq<string>, pending: seq<string>): (r: seq<string>)
    requires |applied| > 0 && |pending| > 0
    ensures |applied| == 1 && |pending| == 1 ==> r == pending
  {
    if pending[0] != applied[0] then SectorChange(applied, pending[0]) else applied
  }

  /** The selection in force after applyFilters: provinces and statuses through their handlers,
      sector and year only if they differ from the applied ones. */
  function ApplyPending(applied: Selection, pending: Selection): (r: Selection)
    requires |applied.sectors| > 0 && |pending.sectors| > 0
    ensures |pending.provinces| > 0 && |pending.statuses| > 0 && |applied.sectors| == 1 && |pending.sectors| == 1 ==> r == pending
  {
    Selection(EmptyToAll(pending.provinces), EmptyToAll(pending.statuses),
              AppliedSectors(applied.sectors, pending.sectors),
              if pending.year != applied.year then pending.year else applied.year)
  }

  // ---- Finding: removing a pending sector chip ----

  /** The pending sector chip's remove button as written: it runs handlePendingSectorChange,
      which compares the removed sector with the APPLIED sectors. */
  function RemovePendingSectorChipAsWritten(applied: seq<string>, pending: seq<string>, sector: string): (r: seq<string>)
    ensures |r| == 1
  {
    SectorChange(applied, sector)
  }

  /** With "All" applied and "Food" pending, removing the Food chip leaves Food selected. */
  lemma PendingSectorChipStays()
    ensures var r := RemovePendingSectorChipAsWritten([All], ["Food"], "Food"); r == ["Food"] && "Food" in Concrete(r)
  {
    var r := RemovePendingSectorChipAsWritten([All], ["Food"], "Food");
    assert r == ["Food"];
    assert "Food" in r;
  }

  /** The evident intent: the chip removal toggles the PENDING sector. */
  function RemovePendingSectorChip(pending: seq<string>, sector: string): (r: seq<string>)
    ensures |r| == 1
  {
    SectorChange(pending, sector)
  }

  /** Removing the chip of the pending sector always clears it. */
  lemma RemovePendingSectorChipClears(pending: seq<string>, sector: string)
    requires |pending| == 1 && sector in Concrete(pending)
    ensures RemovePendingSectorChip(pending, sector) == [All]
    ensures sector !in Concrete(RemovePendingSectorChip(pending, sector))
  {
    SectorChangeToggles(pending, sector);
  }
}

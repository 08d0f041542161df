/** The household-business page: the chosen tier and sector, kept in browser
    storage, and the screen they select. */
module HkdModule {
  import opened Types
  import opened Constants
  import opened NumberText
  import HkdWizard

  /** The screen the page shows. */
  datatype Screen = Wizard | Group1Dashboard | Group2Dashboard(sector: BusinessSector) | Group3Info

  /** `renderContent`: a tier without a sector (left over from an older
      version of the page) sends the user back to the wizard, as does the
      undetermined tier; otherwise each tier has its own screen. */
  function Dispatch(group: HKDGroup, sector: Option<BusinessSector>): (s: Screen)
    ensures s.Wizard? <==> group == Undetermined || sector.None?
    ensures s == Group1Dashboard <==> group == Group1 && sector.Some?
    ensures s.Group2Dashboard? <==> group == Group2 && sector.Some?
    ensures s.Group2Dashboard? ==> sector == Some(s.sector)
    ensures s == Group3Info <==> group == Group3 && sector.Some?
  {
    if group != Undetermined && sector.None? then Wizard
    else
      match group
      case Group1 => Group1Dashboard
      case Group2 => Group2Dashboard(sector.value)
      case Group3 => Group3Info
      case Undetermined => Wizard
  }

  /** The tier read back from storage: the saved one, or undetermined when
      nothing is saved. */
  function RestoreGroup(saved: Option<HKDGroup>): (g: HKDGroup)
    ensures saved.None? ==> g == Undetermined
    ensures saved.Some? ==> g == saved.value
  {
    if saved.Some? then saved.value else Undetermined
  }

  /** The page's state: the tier and sector in memory and the two values
      kept in storage under 'hkd-group' and 'hkd-sector'. */
  class HkdModuleState {
    var group: HKDGroup
    var sector: Option<BusinessSector>
    var savedGroup: Option<HKDGroup>
    var savedSector: Option<BusinessSector>

    /** Storage and memory agree: reloading the page restores the state. */
    ghost predicate Valid()
      reads this
    {
      group == RestoreGroup(savedGroup) && sector == savedSector
    }

    /** The state on opening the page, read from storage. */
    constructor(storedGroup: Option<HKDGroup>, storedSector: Option<BusinessSector>)
      ensures group == RestoreGroup(storedGroup) && sector == storedSector
      ensures savedGroup == storedGroup && savedSector == storedSector
      ensures Valid()
    {
      group := RestoreGroup(storedGroup);
      sector := storedSector;
      savedGroup := storedGroup;
      savedSector := storedSector;
    }

    /** `handleGroupAndSectorSelect`: store both values, then show them. */
    method Select(selectedGroup: HKDGroup, selectedSector: BusinessSector)
      requires Valid()
      modifies this
      ensures savedGroup == Some(selectedGroup) && savedSector == Some(selectedSector)
      ensures group == selectedGroup && sector == Some(selectedSector)
      ensures Valid()
    {
      savedGroup := Some(selectedGroup);
      savedSector := Some(selectedSector);
      group := selectedGroup;
      sector := Some(selectedSector);
    }

    /** `handleReset`: clear storage and go back to the undetermined tier. */
    method Reset()
      requires Valid()
      modifies this
      ensures savedGroup == None && savedSector == None
      ensures group == Undetermined && sector == None
      ensures Valid() && Dispatch(group, sector) == Wizard
    {
      savedGroup := None;
      savedSector := None;
      group := Undetermined;
      sector := None;
    }
  }

  /** With nothing saved the page opens on the wizard. */
  lemma FreshPageShowsWizard()
    ensures Dispatch(RestoreGroup(None), None) == Wizard
  {
  }

  /** A tier chosen with a sector shows that tier's screen; the Group 2
      dashboard receives the chosen sector. */
  lemma {:induction false} SelectedTierScreen(g: HKDGroup, s: BusinessSector)
    ensures g == Group1 ==> Dispatch(g, Some(s)) == Group1Dashboard
    ensures g == Group2 ==> Dispatch(g, Some(s)) == Group2Dashboard(s)
    ensures g == Group3 ==> Dispatch(g, Some(s)) == Group3Info
    ensures g == Undetermined ==> Dispatch(g, Some(s)) == Wizard
  {
  }

  /** The wizard's submission, once selected, leads to the dashboard of the
      revenue's tier: the Group 1 tracker up to 200 million, the Group 2
      ledger up to 3 billion, the Group 3 page above that. */
  lemma {:induction false} WizardSubmissionRoutes(revenueStr: string, choice: Option<HkdWizard.DetailedChoice>)
    requires HkdWizard.Submit(revenueStr, choice).Some?
    ensures var sel := HkdWizard.Submit(revenueStr, choice).value;
            var n := ParseGrouped(revenueStr).value;
            && (Dispatch(sel.group, Some(sel.sector)) == Group1Dashboard <==> n <= HkdGroup1Threshold)
            && (Dispatch(sel.group, Some(sel.sector)) == Group2Dashboard(sel.sector) <==>
                HkdGroup1Threshold < n <= HkdGroup2Threshold)
            && (Dispatch(sel.group, Some(sel.sector)) == Group3Info <==> HkdGroup2Threshold < n)
  {
  }
}

/**
 * The wizard of datamerger/wizard/wizard.py. Its `nextId` decides which
 * alignment pages to show from the profilometer and Brillouin path strings of
 * the select-data page; its change handler bounces the user back past the
 * load page.
 */
module PathWizard {
  import opened Wrappers
  import opened Pages
  import History

  /**
   * `nextId` for given path strings. It fails exactly for the terminator, for
   * an id that is no page, and for an alignment page whose path is empty;
   * from select it always gives load; from load the first alignment page whose
   * path is set, else output.
   */
  function NextPage(profilometerPath: string, brillouinPath: string, current: int): (r: Result<int, NavError>)
    ensures r.Failure? <==>
              || current == NoPage
              || current !in {SelectDataPage, LoadDataPage, AlignProfilometerDataPage,
                              AlignBrillouinDataPage, OutputPage, DonePage}
              || (current == AlignProfilometerDataPage && profilometerPath == "")
              || (current == AlignBrillouinDataPage && brillouinPath == "")
    ensures current == SelectDataPage ==> r == Success(LoadDataPage)
    ensures current == LoadDataPage ==>
              r == Success(if profilometerPath != "" then AlignProfilometerDataPage
                           else if brillouinPath != "" then AlignBrillouinDataPage
                           else OutputPage)
    ensures current == DonePage ==> r == Success(NoPage)
  {
    var p, b := profilometerPath != "", brillouinPath != "";
    NextFromSelect(p, b);
    NextFromLoad(p, b);
    NextFromDone(p, b);
    ExpectedWellOrdered(p, b);
    NextId(p, b, current)
  }

  class Wizard {
    /** QWizard's visited pages; the last one is the current page. */
    var history: seq<int>
    /** `__previous_page_id`. */
    var previousPageId: int
    /** The select-data page's profilometer and Brillouin paths. */
    var profilometerPath: string
    var brillouinPath: string

    function State(): History.Nav
      reads this
    {
      History.Nav(history, previousPageId)
    }

    ghost predicate Valid()
      reads this
    {
      History.Settled(State())
    }

    function CurrentId(): int
      reads this
    {
      History.Current(State())
    }

    /** A new wizard shows no page yet and remembers select as the previous page. */
    constructor ()
      ensures State() == History.Initial
      ensures profilometerPath == "" && brillouinPath == ""
    {
      history := [];
      previousPageId := SelectDataPage;
      profilometerPath := "";
      brillouinPath := "";
    }

    /** The user picks paths on the select-data page. */
    method SelectPaths(profilometer: string, brillouin: string)
      modifies this
      ensures profilometerPath == profilometer && brillouinPath == brillouin
      ensures State() == old(State())
    {
      profilometerPath, brillouinPath := profilometer, brillouin;
    }

    /** `nextId()` for the current page and the current paths. */
    function NextId(): Result<int, NavError>
      reads this
    {
      NextPage(profilometerPath, brillouinPath, CurrentId())
    }

    /** `__on_current_id_changed`: record the new page, then go back once more if it is load reached from anywhere but select. */
    method OnCurrentIdChanged(newId: int)
      modifies this
      decreases |history|, 1
      ensures State() == History.OnChanged(old(State()), newId)
      ensures profilometerPath == old(profilometerPath) && brillouinPath == old(brillouinPath)
    {
      var previous := previousPageId;
      previousPageId := newId;
      if newId == LoadDataPage && previous != SelectDataPage {
        Back();
      }
    }

    /**
     * QWizard `back()`, with the handler running on the page it lands on.
     * From a settled wizard it comes to rest settled and never on the load page.
     */
    method Back()
      modifies this
      decreases |history|, 0
      ensures State() == History.Back(old(State()))
      ensures old(Valid()) && |old(history)| >= 2 ==> Valid() && CurrentId() != LoadDataPage
      ensures profilometerPath == old(profilometerPath) && brillouinPath == old(brillouinPath)
    {
      ghost var before := State();
      if |history| >= 2 {
        var newId := history[|history| - 2];
        history := history[..|history| - 1];
        OnCurrentIdChanged(newId);
        if History.Settled(before) {
          History.BackSkipsLoad(before);
        }
      }
    }

    /**
     * QWizard `next()`. With no current page it does nothing; when `nextId`
     * raises, the error is reported and nothing changes; otherwise the wizard
     * steps to the page `nextId` gave, staying settled.
     */
    method Next() returns (error: Option<NavError>)
      modifies this
      ensures old(history) == [] ==> error == None && State() == old(State())
      ensures old(history) != [] && old(NextId()).Failure? ==>
                error == Some(old(NextId()).error) && State() == old(State())
      ensures old(history) != [] && old(NextId()).Success? ==>
                error == None && State() == History.Step(old(State()), old(NextId()).value)
      ensures old(Valid()) ==> Valid()
      ensures profilometerPath == old(profilometerPath) && brillouinPath == old(brillouinPath)
    {
      error := None;
      if history == [] {
        return;
      }
      ghost var before := State();
      var next := NextId();
      if next.Failure? {
        error := Some(next.error);
        return;
      }
      var id := next.value;
      if id != NoPage && id !in history {
        history := history + [id];
        OnCurrentIdChanged(id);
      }
      if History.Settled(before) {
        History.StepKeepsSettled(before, id);
      }
    }

    /** QWizard `restart()`: the wizard shows the select page with select recorded as previous. */
    method Restart()
      modifies this
      ensures State() == History.Restart(old(State()))
      ensures State() == History.Nav([SelectDataPage], SelectDataPage) && Valid()
      ensures profilometerPath == old(profilometerPath) && brillouinPath == old(brillouinPath)
    {
      ghost var before := State();
      if history != [] {
        history := [];
        OnCurrentIdChanged(NoPage);
      }
      history := history + [SelectDataPage];
      OnCurrentIdChanged(SelectDataPage);
      History.RestartShowsSelect(before);
    }
  }
}

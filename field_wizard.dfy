/**
 * The wizard of datamerger/wizard/__init__.py. It is the same wizard as the
 * one in wizard.py except that `nextId` reads the optional paths through
 * QWizard's registered fields (`field(name)`) instead of through the
 * select-data page's properties.
 */
module FieldWizard {
  import opened Wrappers
  import opened Pages
  import opened SelectData
  import History
  import PathWizard

  /**
   * `field(name)`: the value registered under `name`, or None for a name that
   * was never registered (Qt returns an invalid QVariant, which Python sees
   * as None).
   */
  function Field(fields: map<string, string>, name: string): (r: Option<string>)
    ensures r.Some? <==> name in fields
    ensures r.Some? ==> r.value == fields[name]
  {
    if name in fields then Some(fields[name]) else None
  }

  /** `field(name) != ""`: also true for an unregistered name, since `None != ""`. */
  function Includes(fields: map<string, string>, name: string): (r: bool)
    ensures r <==> name !in fields || fields[name] != ""
  {
    Field(fields, name) != Some("")
  }

  /**
   * `nextId` driven by the field values. From select it gives load whatever
   * the fields hold; from load the first alignment page whose field is set
   * (or unregistered), else output; it fails for an alignment page whose
   * field holds the empty string.
   */
  function NextPage(fields: map<string, string>, current: int): (r: Result<int, NavError>)
    ensures current == SelectDataPage ==> r == Success(LoadDataPage)
    ensures current == LoadDataPage ==>
              r == Success(if Includes(fields, ProfilometerPathFieldName) then AlignProfilometerDataPage
                           else if Includes(fields, BrillouinPathFieldName) then AlignBrillouinDataPage
                           else OutputPage)
    ensures current == DonePage ==> r == Success(NoPage)
    ensures current == AlignProfilometerDataPage ==>
              (r.Failure? <==> Field(fields, ProfilometerPathFieldName) == Some(""))
    ensures current == AlignBrillouinDataPage ==>
              (r.Failure? <==> Field(fields, BrillouinPathFieldName) == Some(""))
  {
    var p := Includes(fields, ProfilometerPathFieldName);
    var b := Includes(fields, BrillouinPathFieldName);
    NextFromSelect(p, b);
    NextFromLoad(p, b);
    NextFromDone(p, b);
    ExpectedWellOrdered(p, b);
    NextId(p, b, current)
  }

  /** With both fields registered, this `nextId` and the one in wizard.py agree on every page. */
  lemma AgreesWithPathWizard(fields: map<string, string>, current: int)
    requires ProfilometerPathFieldName in fields && BrillouinPathFieldName in fields
    ensures NextPage(fields, current)
         == PathWizard.NextPage(fields[ProfilometerPathFieldName], fields[BrillouinPathFieldName], current)
  {
  }

  /** An unregistered profilometer field does not read as empty: load is followed by profilometer alignment. */
  lemma UnregisteredFieldIncludesPage(fields: map<string, string>)
    requires ProfilometerPathFieldName !in fields
    ensures NextPage(fields, LoadDataPage) == Success(AlignProfilometerDataPage)
  {
  }

  /** The field the output page registers (its trailing "*" only marks it mandatory). */
  const OutputPathFieldName: string := "output_path"

  class Wizard {
    /** QWizard's visited pages; the last one is the current page. */
    var history: seq<int>
    /** `__previous_page_id`. */
    var previousPageId: int
    /** The wizard's registered fields and their values. */
    var fields: map<string, string>

    function State(): History.Nav
      reads this
    {
      History.Nav(history, previousPageId)
    }

    ghost predicate Valid()
      reads this
    {
      History.Settled(State())
    }

    function CurrentId(): int
      reads this
    {
      History.Current(State())
    }

    /**
     * A new wizard: no page shown, select remembered as previous, and the
     * fields its pages register when they are added: the select page's three
     * paths and the output page's path, all empty.
     */
    constructor ()
      ensures State() == History.Initial
      ensures fields == map[ElementalPathFieldName := "", ProfilometerPathFieldName := "", BrillouinPathFieldName := "",
                     OutputPathFieldName := ""]
    {
      history := [];
      previousPageId := SelectDataPage;
      fields := map[ElementalPathFieldName := "", ProfilometerPathFieldName := "", BrillouinPathFieldName := "",
                     OutputPathFieldName := ""];
    }

    /** QWizard `setField`: a registered field takes the value; an unknown name changes nothing. */
    method SetField(name: string, value: string)
      modifies this
      ensures fields == if name in old(fields) then old(fields)[name := value] else old(fields)
      ensures State() == old(State())
    {
      if name in fields {
        fields := fields[name := value];
      }
    }

    /** `nextId()` for the current page and the current field values. */
    function NextId(): Result<int, NavError>
      reads this
    {
      NextPage(fields, CurrentId())
    }

    /** `__on_current_id_changed`: record the new page, then go back once more if it is load reached from anywhere but select. */
    method OnCurrentIdChanged(newId: int)
      modifies this
      decreases |history|, 1
      ensures State() == History.OnChanged(old(State()), newId)
      ensures fields == old(fields)
    {
      var previous := previousPageId;
      previousPageId := newId;
      if newId == LoadDataPage && previous != SelectDataPage {
        Back();
      }
    }

    /**
     * QWizard `back()`, with the handler running on the page it lands on.
     * From a settled wizard it comes to rest settled and never on the load page.
     */
    method Back()
      modifies this
      decreases |history|, 0
      ensures State() == History.Back(old(State()))
      ensures old(Valid()) && |old(history)| >= 2 ==> Valid() && CurrentId() != LoadDataPage
      ensures fields == old(fields)
    {
      ghost var before := State();
      if |history| >= 2 {
        var newId := history[|history| - 2];
        history := history[..|history| - 1];
        OnCurrentIdChanged(newId);
        if History.Settled(before) {
          History.BackSkipsLoad(before);
        }
      }
    }

    /**
     * QWizard `next()`. With no current page it does nothing; when `nextId`
     * raises, the error is reported and nothing changes; otherwise the wizard
     * steps to the page `nextId` gave, staying settled.
     */
    method Next() returns (error: Option<NavError>)
      modifies this
      ensures old(history) == [] ==> error == None && State() == old(State())
      ensures old(history) != [] && old(NextId()).Failure? ==>
                error == Some(old(NextId()).error) && State() == old(State())
      ensures old(history) != [] && old(NextId()).Success? ==>
                error == None && State() == History.Step(old(State()), old(NextId()).value)
      ensures old(Valid()) ==> Valid()
      ensures fields == old(fields)
    {
      error := None;
      if history == [] {
        return;
      }
      ghost var before := State();
      var next := NextId();
      if next.Failure? {
        error := Some(next.error);
        return;
      }
      var id := next.value;
      if id != NoPage && id !in history {
        history := history + [id];
        OnCurrentIdChanged(id);
      }
      if History.Settled(before) {
        History.StepKeepsSettled(before, id);
      }
    }

    /** QWizard `restart()`: the wizard shows the select page with select recorded as previous. */
    method Restart()
      modifies this
      ensures State() == History.Restart(old(State()))
      ensures State() == History.Nav([SelectDataPage], SelectDataPage) && Valid()
      ensures fields == old(fields)
    {
      ghost var before := State();
      if history != [] {
        history := [];
        OnCurrentIdChanged(NoPage);
      }
      history := history + [SelectDataPage];
      OnCurrentIdChanged(SelectDataPage);
      History.RestartShowsSelect(before);
    }
  }
}

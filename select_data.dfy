/**
 * The select-data page (datamerger/wizard/select_data_page.py): the names of
 * the three path fields it registers with the wizard, and the completeness
 * rule that enables the wizard's Next button on it.
 */
module SelectData {

  const ElementalPathFieldName: string := "elemental_path"
  const ProfilometerPathFieldName: string := "profilometer_path"
  const BrillouinPathFieldName: string := "brillouin_path"

  /** No field name aliases another, so each path is stored and read on its own. */
  lemma FieldNamesDistinct()
    ensures ElementalPathFieldName != ProfilometerPathFieldName
    ensures ElementalPathFieldName != BrillouinPathFieldName
    ensures ProfilometerPathFieldName != BrillouinPathFieldName
  {
  }

  /**
   * `isComplete`: the elemental path is chosen and at least one of the
   * profilometer and Brillouin paths is chosen too (a path is chosen when it
   * is not the empty string).
   */
  function IsComplete(elementalPath: string, profilometerPath: string, brillouinPath: string): (r: bool)
    ensures elementalPath == "" ==> !r
    ensures elementalPath != "" && profilometerPath != "" ==> r
    ensures elementalPath != "" && brillouinPath != "" ==> r
    ensures profilometerPath == "" && brillouinPath == "" ==> !r
  {
    elementalPath != "" && (profilometerPath != "" || brillouinPath != "")
  }

  /** The kinds of data the page lets the user pick. */
  datatype Source = Elemental | Profilometer | Brillouin

  /** The sources whose path has been chosen. */
  function Chosen(elementalPath: string, profilometerPath: string, brillouinPath: string): set<Source>
  {
    (if elementalPath != "" then {Elemental} else {})
    + (if profilometerPath != "" then {Profilometer} else {})
    + (if brillouinPath != "" then {Brillouin} else {})
  }

  /**
   * The page's own instruction, "select the elemental data and at least one
   * other data source", as a statement about the chosen set: the page is
   * complete exactly when elemental data and at least two sources are chosen.
   */
  lemma CompleteIffElementalAndAnother(elementalPath: string, profilometerPath: string, brillouinPath: string)
    ensures IsComplete(elementalPath, profilometerPath, brillouinPath)
        <==> (var c := Chosen(elementalPath, profilometerPath, brillouinPath); Elemental in c && |c| >= 2)
  {
    var c := Chosen(elementalPath, profilometerPath, brillouinPath);
    if elementalPath != "" && profilometerPath == "" && brillouinPath == "" {
      assert c == {Elemental};
    } else if elementalPath != "" && profilometerPath != "" {
      assert {Elemental, Profilometer} <= c;
      assert |{Elemental, Profilometer}| == 2;
      assert |c| >= |{Elemental, Profilometer}|;
    } else if elementalPath != "" && brillouinPath != "" {
      assert {Elemental, Brillouin} <= c;
      assert |{Elemental, Brillouin}| == 2;
      assert |c| >= |{Elemental, Brillouin}|;
    }
  }
}

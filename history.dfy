/**
 * The wizard's navigation state as values: QWizard's page history (its last
 * entry is the current page) and the handler's remembered previous page id.
 *
 * `OnChanged` is the `__on_current_id_changed` handler (datamerger/wizard/wizard.py
 * and datamerger/wizard/__init__.py): it records the new page as the previous
 * one and then, when the new page is the load page and the page before it was
 * not the select page, goes back once more. `Back`, `Forward`, `Step` and
 * `Restart` are the QWizard operations that emit the change signal the handler
 * listens to; the handler runs inside them, so they call each other.
 */
module History {
  import opened Wrappers
  import opened Pages

  datatype Nav = Nav(history: seq<int>, previous: int)

  /** `currentId()`: the last page of the history, or Qt's -1 when there is none. */
  function Current(n: Nav): int
  {
    if n.history == [] then NoPage else n.history[|n.history| - 1]
  }

  /** A freshly built wizard: no page shown yet, previous page initialised to select. */
  const Initial: Nav := Nav([], SelectDataPage)

  /** `__on_current_id_changed(newId)`. */
  function OnChanged(n: Nav, newId: int): Nav
    decreases |n.history|, 1
  {
    var previous := n.previous;
    var recorded := n.(previous := newId);
    if newId == LoadDataPage && previous != SelectDataPage then Back(recorded) else recorded
  }

  /** QWizard `back()`: drop the current page and show the one before it. */
  function Back(n: Nav): Nav
    decreases |n.history|, 0
  {
    if |n.history| < 2 then n
    else OnChanged(n.(history := n.history[..|n.history| - 1]), n.history[|n.history| - 2])
  }

  /** Switching forward to page `id`: append it to the history and signal the change. */
  function Forward(n: Nav, id: int): Nav
  {
    OnChanged(n.(history := n.history + [id]), id)
  }

  /** QWizard `next()` once `nextId` returned `id`: no move to -1 or to a page already in the history. */
  function Step(n: Nav, id: int): Nav
  {
    if id == NoPage || id in n.history then n else Forward(n, id)
  }

  /** QWizard `restart()`: clear a running history (signalling -1), then show the select page. */
  function Restart(n: Nav): Nav
  {
    var cleared := if n.history == [] then n else OnChanged(n.(history := []), NoPage);
    Forward(cleared, SelectDataPage)
  }

  /**
   * The state the wizard rests in between user actions: the history starts at
   * the select page and is strictly increasing, and the handler's previous
   * page is the current page.
   */
  ghost predicate Settled(n: Nav)
  {
    && n.history != []
    && n.history[0] == SelectDataPage
    && (forall i, j :: 0 <= i < j < |n.history| ==> n.history[i] < n.history[j])
    && n.previous == Current(n)
  }

  /** Restarting from any state shows the select page with select recorded as previous. */
  lemma RestartShowsSelect(n: Nav)
    ensures Restart(n) == Nav([SelectDataPage], SelectDataPage)
    ensures Settled(Restart(n))
  {
    var cleared := if n.history == [] then n else OnChanged(n.(history := []), NoPage);
    assert cleared.history == [];
    assert [] + [SelectDataPage] == [SelectDataPage];
  }

  /**
   * Moving forward from a settled state to a page above the current one never
   * bounces: the page is appended and recorded as previous. In particular the
   * first move from select to load stays on load.
   */
  lemma {:induction false} ForwardNoBounce(n: Nav, id: int)
    requires Settled(n)
    requires Current(n) < id
    ensures Forward(n, id) == Nav(n.history + [id], id)
    ensures Settled(Forward(n, id))
  {
    var h := n.history;
    assert forall k :: 0 < k < |h| ==> h[0] < h[k];
    assert id == LoadDataPage ==> n.previous == SelectDataPage;
    var r := Nav(h + [id], id);
    forall i, j | 0 <= i < j < |r.history| ensures r.history[i] < r.history[j] {
      if j < |h| {
        assert r.history[i] == h[i] && r.history[j] == h[j];
      } else {
        assert r.history[i] == h[i] && (i == |h| - 1 || h[i] < h[|h| - 1]);
      }
    }
  }

  /** The first move of a restarted wizard, select to load, does not bounce. */
  lemma FirstMoveStaysOnLoad(n: Nav)
    ensures Forward(Restart(n), LoadDataPage) == Nav([SelectDataPage, LoadDataPage], LoadDataPage)
  {
    RestartShowsSelect(n);
    ForwardNoBounce(Restart(n), LoadDataPage);
  }

  /**
   * Going back from a settled state drops the current page and, when that
   * lands on the load page, the load page too: the bounce takes exactly one
   * extra step and the wizard comes to rest settled, never on the load page.
   */
  lemma {:induction false} BackSkipsLoad(n: Nav)
    requires Settled(n)
    requires |n.history| >= 2
    ensures var h := n.history;
            Back(n).history == if h[|h| - 2] == LoadDataPage then h[..|h| - 2] else h[..|h| - 1]
    ensures Settled(Back(n))
    ensures Current(Back(n)) != LoadDataPage
  {
    var h := n.history;
    var m := |h|;
    assert forall k :: 0 < k < m ==> h[0] < h[k];
    var popped := Nav(h[..m - 1], n.previous);
    assert Back(n) == OnChanged(popped, h[m - 2]);
    if h[m - 2] == LoadDataPage {
      assert m >= 3 && h[m - 3] == SelectDataPage;
      assert n.previous == h[m - 1] && h[m - 1] != SelectDataPage;
      var onLoad := Nav(h[..m - 1], LoadDataPage);
      assert OnChanged(popped, h[m - 2]) == Back(onLoad);
      assert h[..m - 1][..m - 2] == h[..m - 2];
      assert Back(onLoad) == OnChanged(Nav(h[..m - 2], LoadDataPage), SelectDataPage);
      assert Back(n) == Nav(h[..m - 2], SelectDataPage);
    } else {
      assert Back(n) == Nav(h[..m - 1], h[m - 2]);
    }
  }

  /** Back from the first page after load (an alignment page, or output when there is none) ends on select. */
  lemma BackFromFirstPageAfterLoad(page: int)
    requires LoadDataPage < page
    ensures Back(Nav([SelectDataPage, LoadDataPage, page], page)) == Nav([SelectDataPage], SelectDataPage)
  {
    var n := Nav([SelectDataPage, LoadDataPage, page], page);
    BackSkipsLoad(n);
    assert n.history[..1] == [SelectDataPage];
  }

  /**
   * `next()` from a settled state, with a page of the kind `nextId` gives
   * (the terminator, or a page above the current one), keeps the wizard
   * settled: the terminator leaves it where it is, any other page is appended.
   */
  lemma StepKeepsSettled(n: Nav, id: int)
    requires Settled(n)
    requires id == NoPage || Current(n) < id
    ensures Step(n, id) == if id == NoPage then n else Nav(n.history + [id], id)
    ensures Settled(Step(n, id))
  {
    if id != NoPage {
      var h := n.history;
      assert forall k :: 0 <= k < |h| - 1 ==> h[k] < h[|h| - 1];
      assert id !in h;
      ForwardNoBounce(n, id);
    }
  }
}

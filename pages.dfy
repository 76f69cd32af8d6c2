/**
 * The wizard's page ids and the page order that `nextId` walks
 * (datamerger/wizard/wizard.py and its duplicate datamerger/wizard/__init__.py).
 * The order is a fixed list of candidate ids from which the two optional
 * alignment pages are dropped when their data path is empty; the next page is
 * the successor of the current one in that list.
 */
module Pages {
  import opened Wrappers

  const SelectDataPage: int := 0
  const LoadDataPage: int := 1
  const AlignProfilometerDataPage: int := 2
  const AlignBrillouinDataPage: int := 3
  const OutputPage: int := 4
  const DonePage: int := 5
  /** Qt's "no page" id; it also terminates the page list. */
  const NoPage: int := -1

  /** What `nextId` raises. */
  datatype NavError =
    | NotInPageList(id: int)  // `list.index` raises ValueError
    | NoPageAfter(id: int)    // `page_ids[index + 1]` raises IndexError

  /** The entries that are not None, in their order (`if i is not None`). */
  function Present(xs: seq<Option<int>>): seq<int>
  {
    if xs == [] then []
    else (if xs[0].Some? then [xs[0].value] else []) + Present(xs[1..])
  }

  /** The candidate list before filtering; an alignment page is None when left out. */
  function Candidates(includeProfilometer: bool, includeBrillouin: bool): seq<Option<int>>
  {
    [Some(SelectDataPage), Some(LoadDataPage),
     if includeProfilometer then Some(AlignProfilometerDataPage) else None,
     if includeBrillouin then Some(AlignBrillouinDataPage) else None,
     Some(OutputPage), Some(DonePage), Some(NoPage)]
  }

  /** The page list written out: an independent reference for `PageIds`. */
  function Expected(includeProfilometer: bool, includeBrillouin: bool): seq<int>
  {
    [SelectDataPage, LoadDataPage]
    + (if includeProfilometer then [AlignProfilometerDataPage] else [])
    + (if includeBrillouin then [AlignBrillouinDataPage] else [])
    + [OutputPage, DonePage, NoPage]
  }

  lemma PresentCandidates(includeProfilometer: bool, includeBrillouin: bool)
    ensures Present(Candidates(includeProfilometer, includeBrillouin))
         == Expected(includeProfilometer, includeBrillouin)
  {
    var c := Candidates(includeProfilometer, includeBrillouin);
    assert c[6..][1..] == [];
    assert Present(c[6..]) == [NoPage];
    assert c[5..][1..] == c[6..];
    assert Present(c[5..]) == [DonePage, NoPage];
    assert c[4..][1..] == c[5..];
    assert Present(c[4..]) == [OutputPage, DonePage, NoPage];
    assert c[3..][1..] == c[4..];
    assert Present(c[3..]) == (if includeBrillouin then [AlignBrillouinDataPage] else []) + Present(c[4..]);
    assert c[2..][1..] == c[3..];
    assert Present(c[2..]) == (if includeProfilometer then [AlignProfilometerDataPage] else []) + Present(c[3..]);
    assert c[1..][1..] == c[2..];
    assert Present(c[1..]) == [LoadDataPage] + Present(c[2..]);
    assert Present(c) == [SelectDataPage] + Present(c[1..]);
  }

  /** Strictly increasing up to (not including) the last entry. */
  predicate IncreasingBeforeLast(s: seq<int>)
  {
    forall i, j :: 0 <= i < j < |s| - 1 ==> s[i] < s[j]
  }

  /** What the written-out page list looks like: the shape `nextId` relies on. */
  ghost predicate WellOrdered(s: seq<int>)
  {
    && 5 <= |s|
    && s[0] == SelectDataPage && s[1] == LoadDataPage
    && s[|s| - 3] == OutputPage && s[|s| - 2] == DonePage && s[|s| - 1] == NoPage
    && IncreasingBeforeLast(s)
  }

  lemma ExpectedWellOrdered(includeProfilometer: bool, includeBrillouin: bool)
    ensures |Expected(includeProfilometer, includeBrillouin)| <= 7
    ensures WellOrdered(Expected(includeProfilometer, includeBrillouin))
    ensures AlignProfilometerDataPage in Expected(includeProfilometer, includeBrillouin) <==> includeProfilometer
    ensures AlignBrillouinDataPage in Expected(includeProfilometer, includeBrillouin) <==> includeBrillouin
  {
    var e := Expected(includeProfilometer, includeBrillouin);
    if includeProfilometer && includeBrillouin {
      assert e == [0, 1, 2, 3, 4, 5, -1];
    } else if includeProfilometer {
      assert e == [0, 1, 2, 4, 5, -1];
    } else if includeBrillouin {
      assert e == [0, 1, 3, 4, 5, -1];
    } else {
      assert e == [0, 1, 4, 5, -1];
    }
  }

  /**
   * The filtered page list of `nextId`: select, load, output, done and the
   * terminator always, in that order; each alignment page exactly when it is
   * included; increasing up to the terminator.
   */
  function PageIds(includeProfilometer: bool, includeBrillouin: bool): (r: seq<int>)
    ensures 5 <= |r| <= 7
    ensures r[0] == SelectDataPage && r[1] == LoadDataPage
    ensures r[|r| - 3] == OutputPage && r[|r| - 2] == DonePage && r[|r| - 1] == NoPage
    ensures IncreasingBeforeLast(r)
    ensures AlignProfilometerDataPage in r <==> includeProfilometer
    ensures AlignBrillouinDataPage in r <==> includeBrillouin
  {
    PresentCandidates(includeProfilometer, includeBrillouin);
    ExpectedWellOrdered(includeProfilometer, includeBrillouin);
    Present(Candidates(includeProfilometer, includeBrillouin))
  }

  /** `list.index`: the first position of x, or None where Python raises ValueError. */
  function IndexOf(s: seq<int>, x: int): (r: Option<nat>)
    ensures r.None? <==> x !in s
    ensures r.Some? ==> r.value < |s| && s[r.value] == x && x !in s[..r.value]
  {
    if s == [] then None
    else if s[0] == x then Some(0)
    else match IndexOf(s[1..], x)
      case None => None
      case Some(i) => assert s[..i + 1] == [s[0]] + s[1..][..i]; Some(i + 1)
  }

  /** Where a page sits in a well-ordered list and what follows it. */
  lemma SuccessorInWellOrdered(s: seq<int>, x: int)
    requires WellOrdered(s)
    requires x in s
    ensures IndexOf(s, x).Some?
    ensures x == NoPage <==> IndexOf(s, x).value + 1 == |s|
    ensures IndexOf(s, x).value + 1 < |s| && x == DonePage ==> s[IndexOf(s, x).value + 1] == NoPage
    ensures IndexOf(s, x).value + 1 < |s| && x != DonePage ==>
              x < s[IndexOf(s, x).value + 1] &&
              forall q :: q in s && x < q ==> s[IndexOf(s, x).value + 1] <= q
  {
    var n := |s|;
    var i := IndexOf(s, x).value;
    assert forall k :: 0 < k < n - 1 ==> s[0] < s[k];
    assert forall k :: 0 <= k < n - 2 ==> s[k] < s[n - 2];
    if x == NoPage {
      assert i == n - 1;
    } else {
      assert i < n - 1;
      if x != DonePage {
        assert i < n - 2;
        forall q | q in s && x < q ensures s[i + 1] <= q {
          var k :| 0 <= k < n && s[k] == q;
          assert k != n - 1;
          assert k > i;
        }
      }
    }
  }

  /**
   * `nextId`: the successor of the current page in the filtered list. It fails
   * for a page that is not in the list and for the terminator, which has no
   * successor. Otherwise it never moves backwards: from done it gives the
   * terminator, from any other page the smallest listed page above it.
   */
  function NextId(includeProfilometer: bool, includeBrillouin: bool, current: int): (r: Result<int, NavError>)
    ensures r == Failure(NotInPageList(current)) <==> current !in PageIds(includeProfilometer, includeBrillouin)
    ensures r == Failure(NoPageAfter(current)) <==> current == NoPage
    ensures r.Failure? <==> current !in PageIds(includeProfilometer, includeBrillouin) || current == NoPage
    ensures r.Success? ==> r.value in PageIds(includeProfilometer, includeBrillouin)
    ensures r.Success? && current == DonePage ==> r.value == NoPage
    ensures r.Success? && current != DonePage ==>
              current < r.value &&
              forall q :: q in PageIds(includeProfilometer, includeBrillouin) && current < q ==> r.value <= q
  {
    var ids := PageIds(includeProfilometer, includeBrillouin);
    if current in ids then SuccessorInWellOrdered(ids, current); Lookup(ids, current) else Lookup(ids, current)
  }

  /** The list lookup itself: `page_ids[page_ids.index(current) + 1]`. */
  function Lookup(ids: seq<int>, current: int): Result<int, NavError>
  {
    match IndexOf(ids, current)
    case None => Failure(NotInPageList(current))
    case Some(i) => if i + 1 < |ids| then Success(ids[i + 1]) else Failure(NoPageAfter(current))
  }

  /** From the select page the next page is always the load page. */
  lemma NextFromSelect(includeProfilometer: bool, includeBrillouin: bool)
    ensures NextId(includeProfilometer, includeBrillouin, SelectDataPage) == Success(LoadDataPage)
  {
  }

  /** From the load page: profilometer alignment if included, else Brillouin alignment if included, else output. */
  lemma NextFromLoad(includeProfilometer: bool, includeBrillouin: bool)
    ensures NextId(includeProfilometer, includeBrillouin, LoadDataPage)
         == Success(if includeProfilometer then AlignProfilometerDataPage
                    else if includeBrillouin then AlignBrillouinDataPage
                    else OutputPage)
  {
  }

  /** From the done page the next page is the terminator. */
  lemma NextFromDone(includeProfilometer: bool, includeBrillouin: bool)
    ensures NextId(includeProfilometer, includeBrillouin, DonePage) == Success(NoPage)
  {
  }

  /** An alignment page that was left out of the list makes `nextId` raise. */
  lemma NextFromExcludedAlignPage(includeProfilometer: bool, includeBrillouin: bool)
    ensures !includeProfilometer ==>
              NextId(includeProfilometer, includeBrillouin, AlignProfilometerDataPage)
              == Failure(NotInPageList(AlignProfilometerDataPage))
    ensures !includeBrillouin ==>
              NextId(includeProfilometer, includeBrillouin, AlignBrillouinDataPage)
              == Failure(NotInPageList(AlignBrillouinDataPage))
  {
  }
}

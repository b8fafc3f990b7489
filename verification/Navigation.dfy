/**
  The navigation store of the client: a stack of pages and the index of the
  current one, refining a history of pages behind, the current page, and pages
  ahead.  Pages are objects; `===` compares their handles.
 */
module Navigation {

  datatype View = Login | Main | Settings(section: string)

  // the handle is the identity of the page object
  datatype Page = Page(handle: int, view: View)

  predicate Ephemeral(p: Page) {
    p.view.Login?
  }

  const MAX_NAV_STACK_LEN: nat := 50

  // ---- the history ----

  datatype History = History(back: seq<Page>, current: Page, ahead: seq<Page>)

  /** The newest pages a history of limited length keeps behind the current one. */
  function Newest(back: seq<Page>): (r: seq<Page>)
    ensures |r| < MAX_NAV_STACK_LEN
  {
    if |back| < MAX_NAV_STACK_LEN then back else back[|back| - MAX_NAV_STACK_LEN + 1..]
  }

  /** A new page drops what was ahead; the page it replaces stays behind unless it is ephemeral. */
  function Visit(h: History, page: Page): History {
    if page == h.current then h
    else if Ephemeral(h.current) then History(Newest(h.back), page, [])
    else History(Newest(h.back + [h.current]), page, [])
  }

  function Back(h: History): History {
    if h.back == [] then h
    else History(h.back[..|h.back| - 1], h.back[|h.back| - 1], [h.current] + h.ahead)
  }

  function Forward(h: History): History {
    if h.ahead == [] then h
    else History(h.back + [h.current], h.ahead[0], h.ahead[1..])
  }

  function Length(h: History): nat {
    |h.back| + 1 + |h.ahead|
  }

  /** At most 50 pages, and only the last of them may be ephemeral. */
  ghost predicate Proper(h: History) {
    && Length(h) <= MAX_NAV_STACK_LEN
    && (forall i :: 0 <= i < |h.back| ==> !Ephemeral(h.back[i]))
    && (h.ahead != [] ==> !Ephemeral(h.current))
    && (forall i :: 0 <= i < |h.ahead| - 1 ==> !Ephemeral(h.ahead[i]))
  }

  /** The page at position `i` of a stack, seen as a history. */
  function Split(stack: seq<Page>, i: nat): History
    requires i < |stack|
  {
    History(stack[..i], stack[i], stack[i + 1..])
  }

  // ---- the store ----

  /** The pages that stay behind when the current page is left for a new one. */
  function Behind(h: History): seq<Page> {
    if Ephemeral(h.current) then h.back else h.back + [h.current]
  }

  /** Slicing the stack where it ends, or after the current page, drops what the history drops. */
  lemma SliceIsBehind(stack: seq<Page>, i: nat, page: Page)
    requires i < |stack| && Proper(Split(stack, i))
    ensures Ephemeral(stack[i]) ==> stack[..|stack| - 1] + [page] == Behind(Split(stack, i)) + [page]
    ensures !Ephemeral(stack[i]) ==> stack[..i + 1] + [page] == Behind(Split(stack, i)) + [page]
  {
    var h := Split(stack, i);
    if Ephemeral(stack[i]) {
      assert h.ahead == [];
    } else {
      assert stack[..i + 1] == h.back + [h.current];
    }
  }

  /** Cutting a stack to the newest 50 pages. */
  lemma CutIsNewest(behind: seq<Page>, page: Page)
    ensures var stack := behind + [page];
            Newest(behind) + [page]
            == if MAX_NAV_STACK_LEN < |stack| then stack[|stack| - MAX_NAV_STACK_LEN..] else stack
  {
  }

  lemma VisitIsNewest(h: History, page: Page)
    requires Proper(h) && page != h.current
    ensures Visit(h, page) == History(Newest(Behind(h)), page, [])
    ensures Split(Newest(Behind(h)) + [page], |Newest(Behind(h))|) == Visit(h, page) && Proper(Visit(h, page))
  {
    VisitKeepsProper(h, page);
  }

  class NavigationStore {
    var navStack: seq<Page>
    var currentPageIndex: int

    /** The index is in range, and an ephemeral page can only be the last entry. */
    ghost predicate Valid()
      reads this
    {
      0 <= currentPageIndex < |navStack| && Proper(Split(navStack, currentPageIndex))
    }

    ghost function View(): History
      requires Valid()
      reads this
    {
      Split(navStack, currentPageIndex)
    }

    constructor (main: Page)
      requires main.view == Main
      ensures Valid() && View() == History([], main, [])
    {
      navStack, currentPageIndex := [main], 0;
    }

    /** The stack after navigating to another page: sliced, extended, and cut to the newest pages. */
    method Stacked(page: Page) returns (newNavStack: seq<Page>)
      requires Valid()
      ensures newNavStack == Newest(Behind(View())) + [page]
    {
      hide Proper, Newest;
      ghost var behind := Behind(View());
      SliceIsBehind(navStack, currentPageIndex, page);
      if Ephemeral(navStack[currentPageIndex]) {
        newNavStack := navStack[..|navStack| - 1] + [page];
      } else if currentPageIndex < |navStack| - 1 {
        newNavStack := navStack[..currentPageIndex + 1] + [page];
      } else {
        newNavStack := navStack + [page];
        assert navStack[..currentPageIndex + 1] == navStack;
      }
      assert newNavStack == behind + [page];
      CutIsNewest(behind, page);
      if MAX_NAV_STACK_LEN < |newNavStack| {
        newNavStack := newNavStack[|newNavStack| - MAX_NAV_STACK_LEN..];
      }
    }

    /** The page is the current one afterwards; another page than before is the newest, and nothing is ahead of it. */
    method NavigateTo(page: Page)
      requires Valid()
      modifies this
      ensures Valid() && View() == Visit(old(View()), page)
      ensures navStack[currentPageIndex] == page
      ensures old(navStack[currentPageIndex]) == page ==>
                navStack == old(navStack) && currentPageIndex == old(currentPageIndex)
      ensures old(navStack[currentPageIndex]) != page ==> currentPageIndex == |navStack| - 1
    {
      hide Proper, Newest, Behind;
      if navStack[currentPageIndex] == page {
        return;
      }
      VisitIsNewest(View(), page);
      var newNavStack := Stacked(page);
      currentPageIndex, navStack := |newNavStack| - 1, newNavStack;
    }

    method NavigateBack()
      requires Valid()
      modifies this
      ensures Valid() && View() == Back(old(View())) && navStack == old(navStack)
      ensures currentPageIndex == if old(currentPageIndex) == 0 then 0 else old(currentPageIndex) - 1
    {
      if currentPageIndex == 0 {
        return;
      }
      ghost var h := View();
      assert Proper(Back(h)) by {
        BackKeepsProper(h);
      }
      currentPageIndex := currentPageIndex - 1;
      assert Split(navStack, currentPageIndex) == Back(h);
    }

    method NavigateForward()
      requires Valid()
      modifies this
      ensures Valid() && View() == Forward(old(View())) && navStack == old(navStack)
      ensures currentPageIndex
           == if old(currentPageIndex) == |navStack| - 1 then |navStack| - 1 else old(currentPageIndex) + 1
    {
      if currentPageIndex == |navStack| - 1 {
        return;
      }
      ghost var h := View();
      ForwardKeepsProper(h);
      currentPageIndex := currentPageIndex + 1;
      assert Split(navStack, currentPageIndex) == Forward(h);
    }

    function SelectCurrentPage(): (page: Page)
      requires 0 <= currentPageIndex < |navStack|
      reads this
      ensures page == Split(navStack, currentPageIndex).current
    {
      navStack[currentPageIndex]
    }
  }

  // ---- the history behaves ----

  datatype Move = To(page: Page) | Backward | Onward

  function Moved(h: History, m: Move): History {
    match m
    case To(page) => Visit(h, page)
    case Backward => Back(h)
    case Onward => Forward(h)
  }

  function Journey(h: History, ms: seq<Move>): History
    decreases |ms|
  {
    if ms == [] then h else Journey(Moved(h, ms[0]), ms[1..])
  }

  lemma VisitKeepsProper(h: History, page: Page)
    requires Proper(h)
    ensures Proper(Visit(h, page))
  {
  }

  lemma BackKeepsProper(h: History)
    requires Proper(h)
    ensures Proper(Back(h))
  {
    if h.back != [] {
      var b := Back(h);
      forall i | 0 <= i < |b.ahead| - 1
        ensures !Ephemeral(b.ahead[i])
      {
        assert i == 0 || b.ahead[i] == h.ahead[i - 1];
      }
    }
  }

  lemma ForwardKeepsProper(h: History)
    requires Proper(h)
    ensures Proper(Forward(h))
  {
  }

  /** Wherever navigation leads from the main page, at most 50 pages are kept and only the last may be ephemeral. */
  lemma {:induction false} JourneyProper(h: History, ms: seq<Move>)
    requires Proper(h)
    ensures Proper(Journey(h, ms))
    decreases |ms|
  {
    if ms != [] {
      match ms[0] {
        case To(page) => VisitKeepsProper(h, page);
        case Backward => BackKeepsProper(h);
        case Onward => ForwardKeepsProper(h);
      }
      JourneyProper(Moved(h, ms[0]), ms[1..]);
    }
  }

  /** So nobody ever comes back to a login page: there is none behind, and none ahead but at the end. */
  lemma NoLoginBehind(main: Page, ms: seq<Move>)
    requires main.view == Main
    ensures var h := Journey(History([], main, []), ms);
            && Length(h) <= 50
            && (forall i :: 0 <= i < |h.back| ==> h.back[i].view != Login)
            && (forall i :: 0 <= i < |h.ahead| - 1 ==> h.ahead[i].view != Login)
            && (h.ahead != [] ==> h.current.view != Login)
  {
    JourneyProper(History([], main, []), ms);
  }

  function Times(m: Move, n: nat): seq<Move> {
    if n == 0 then [] else [m] + Times(m, n - 1)
  }

  lemma {:induction false} JourneySplit(h: History, a: seq<Move>, b: seq<Move>)
    ensures Journey(h, a + b) == Journey(Journey(h, a), b)
    decreases |a|
  {
    if a == [] {
      assert a + b == b;
    } else {
      assert (a + b)[1..] == a[1..] + b;
      JourneySplit(Moved(h, a[0]), a[1..], b);
    }
  }

  lemma {:induction false} TimesSnoc(m: Move, n: nat)
    ensures Times(m, n + 1) == Times(m, n) + [m]
  {
    if n != 0 {
      TimesSnoc(m, n - 1);
    }
  }

  /** Any number of steps back, as far as there are pages, is undone by as many steps forward. */
  lemma {:induction false} BackAndForth(h: History, n: nat)
    requires n <= |h.back|
    ensures Journey(h, Times(Backward, n) + Times(Onward, n)) == h
    decreases n
  {
    if n == 0 {
      assert Times(Backward, 0) + Times(Onward, 0) == [];
    } else {
      var there, home := Times(Backward, n - 1) + Times(Onward, n - 1), [Onward];
      BackAndForth(Back(h), n - 1);
      TimesSnoc(Onward, n - 1);
      JourneySplit(Back(h), there, home);
      var all := Times(Backward, n) + Times(Onward, n);
      assert all[0] == Backward && all[1..] == there + home;
      assert Journey(Back(h), home) == Forward(Back(h));
    }
  }

  /** After visiting a page, back leads to the page it was visited from, unless that one was ephemeral. */
  lemma VisitThenBack(h: History, page: Page)
    requires Proper(h) && page != h.current
    ensures Visit(h, page).current == page && Visit(h, page).ahead == []
    ensures |h.back| < 49 ==> Visit(h, page).back == h.back + if Ephemeral(h.current) then [] else [h.current]
    ensures |h.back| == 49 && !Ephemeral(h.current) ==> Visit(h, page).back == h.back[1..] + [h.current]
    ensures h.current.view != Login ==>
              Back(Visit(h, page)).current == h.current && Back(Visit(h, page)).ahead == [page]
    ensures h.current.view == Login && h.back != [] ==> Back(Visit(h, page)).current == h.back[|h.back| - 1]
  {
    assert Length(h) <= MAX_NAV_STACK_LEN;
  }
}

/**
 Parsed elements grouped into pages (app/parsers/unstructured.py:35-60).
 */
module PageGrouping {
  import opened Prelude
  import opened PyText

  /** A missing text is read as "", a missing page number as None. */
  datatype Element = Element(text: string, page: Option<int>)

  datatype PageText = PageText(number: int, text: string)

  /** A non-empty element with a page number. */
  datatype Item = Item(page: int, text: string)

  /** An entry of the pages dictionary. */
  datatype Group = Group(number: int, lines: seq<string>)

  // ---- What the elements hold ----------------------------------------------

  /** The stripped texts that are not empty. */
  function Kept(elements: seq<Element>): seq<string> {
    if elements == [] then []
    else
      var text := Strip(elements[|elements| - 1].text);
      Kept(elements[..|elements| - 1]) + if text == [] then [] else [text]
  }

  function Items(elements: seq<Element>): seq<Item> {
    if elements == [] then []
    else
      var e := elements[|elements| - 1];
      Items(elements[..|elements| - 1])
      + if Strip(e.text) != [] && e.page.Some? then [Item(e.page.value, Strip(e.text))] else []
  }

  /** Texts of the items on page n, in order. */
  function OnPage(items: seq<Item>, n: int): seq<string> {
    if items == [] then []
    else OnPage(items[..|items| - 1], n) + if items[|items| - 1].page == n then [items[|items| - 1].text] else []
  }

  function Texts(items: seq<Item>): seq<string> {
    seq(|items|, i requires 0 <= i < |items| => items[i].text)
  }

  /** The texts kept are those that are not blank, stripped. */
  lemma {:induction false} KeptAre(elements: seq<Element>) returns (at: seq<nat>)
    ensures Picks(elements, Kept(elements), (e: Element) => Strip(e.text) != [], (e: Element) => Strip(e.text), at)
  {
    at := [];
    if elements != [] {
      var init, last := elements[..|elements| - 1], elements[|elements| - 1];
      assert elements == init + [last];
      at := KeptAre(init);
      OneMorePicked(init, last, Kept(init), (e: Element) => Strip(e.text) != [], (e: Element) => Strip(e.text), at);
      at := if Strip(last.text) != [] then at + [|init|] else at;
    }
  }

  /** The texts on a page are those of its items. */
  lemma {:induction false} OnPageAre(items: seq<Item>, n: int) returns (at: seq<nat>)
    ensures Picks(items, OnPage(items, n), (x: Item) => x.page == n, (x: Item) => x.text, at)
  {
    at := [];
    if items != [] {
      var init, last := items[..|items| - 1], items[|items| - 1];
      assert items == init + [last];
      at := OnPageAre(init, n);
      OneMorePicked(init, last, OnPage(init, n), (x: Item) => x.page == n, (x: Item) => x.text, at);
      at := if last.page == n then at + [|init|] else at;
    }
  }

  predicate Paged(e: Element) {
    Strip(e.text) != [] && e.page.Some?
  }

  function ItemOf(e: Element): Item {
    Item(if e.page.Some? then e.page.value else 0, Strip(e.text))
  }

  /** The items are the elements that are not blank and have a page. */
  lemma {:induction false} ItemsAre(elements: seq<Element>) returns (at: seq<nat>)
    ensures Picks(elements, Items(elements), Paged, ItemOf, at)
  {
    at := [];
    if elements != [] {
      var init, last := elements[..|elements| - 1], elements[|elements| - 1];
      assert elements == init + [last];
      at := ItemsAre(init);
      OneMorePicked(init, last, Items(init), Paged, ItemOf, at);
      at := if Paged(last) then at + [|init|] else at;
    }
  }

  // ---- Stable sorts by page ------------------------------------------------

  predicate InPageOrder(items: seq<Item>) {
    forall i, j | 0 <= i < j < |items| :: items[i].page <= items[j].page
  }

  ghost predicate SamePages(a: seq<Item>, b: seq<Item>) {
    forall n :: OnPage(a, n) == OnPage(b, n)
  }

  ghost predicate IsStableSortOf(sorted: seq<Item>, items: seq<Item>) {
    InPageOrder(sorted) && SamePages(sorted, items)
  }

  lemma {:induction false} OnPageConcat(a: seq<Item>, b: seq<Item>, n: int)
    ensures OnPage(a + b, n) == OnPage(a, n) + OnPage(b, n)
  {
    if b == [] {
      assert a + b == a;
    } else {
      assert (a + b)[..|a + b| - 1] == a + b[..|b| - 1];
      OnPageConcat(a, b[..|b| - 1], n);
    }
  }

  lemma {:induction false} OnPageEmpty(items: seq<Item>, n: int)
    ensures OnPage(items, n) == [] <==> forall x | x in items :: x.page != n
  {
    if items != [] {
      var init, last := items[..|items| - 1], items[|items| - 1];
      assert items == init + [last];
      OnPageEmpty(init, n);
    }
  }

  lemma OnPageInit(items: seq<Item>, n: int)
    requires items != []
    ensures var p := OnPage(items, n);
      items[|items| - 1].page == n ==> p != []
    ensures var p := OnPage(items, n);
      OnPage(items[..|items| - 1], n) == if items[|items| - 1].page == n then p[..|p| - 1] else p
  {
  }

  /** There is only one stable sort. */
  lemma {:induction false} StableSortIsUnique(a: seq<Item>, b: seq<Item>)
    requires InPageOrder(a) && InPageOrder(b) && SamePages(a, b)
    ensures a == b
  {
    if a == [] || b == [] {
      BothEmpty(a, b);
    } else {
      var x, y := a[|a| - 1], b[|b| - 1];
      LastPageIsLast(a, b);
      LastPageIsLast(b, a);
      assert OnPage(a, x.page) == OnPage(b, x.page);
      assert OnPage(a, x.page)[|OnPage(a, x.page)| - 1] == x.text;
      assert OnPage(b, x.page)[|OnPage(b, x.page)| - 1] == y.text;
      var a', b' := a[..|a| - 1], b[..|b| - 1];
      forall n ensures OnPage(a', n) == OnPage(b', n) {
        assert OnPage(a, n) == OnPage(b, n);
        OnPageInit(a, n);
        OnPageInit(b, n);
      }
      StableSortIsUnique(a', b');
    }
  }

  lemma BothEmpty(a: seq<Item>, b: seq<Item>)
    requires SamePages(a, b) && (a == [] || b == [])
    ensures a == b
  {
    if a != [] {
      SomePageDiffers(a, b);
    } else if b != [] {
      SomePageDiffers(b, a);
    }
  }

  lemma SomePageDiffers(a: seq<Item>, b: seq<Item>)
    requires a != [] && b == []
    ensures !SamePages(a, b) && !SamePages(b, a)
  {
    var n := a[0].page;
    OnPageEmpty(a, n);
    assert OnPage(a, n) != OnPage(b, n);
  }

  lemma LastPageIsLast(a: seq<Item>, b: seq<Item>)
    requires a != [] && b != [] && InPageOrder(b) && SamePages(a, b)
    ensures a[|a| - 1].page <= b[|b| - 1].page
  {
    var n := a[|a| - 1].page;
    assert OnPage(a, n) == OnPage(b, n);
    OnPageEmpty(a, n);
    OnPageEmpty(b, n);
    assert a[|a| - 1] in a;
  }

  // ---- Groups --------------------------------------------------------------

  predicate Increasing(groups: seq<Group>) {
    forall i, j | 0 <= i < j < |groups| :: groups[i].number < groups[j].number
  }

  /** The entries of the pages dictionary in page order. */
  ghost predicate IsGrouping(groups: seq<Group>, items: seq<Item>) {
    && Increasing(groups)
    && (forall g | g in groups :: g.lines != [] && g.lines == OnPage(items, g.number))
    && (forall x | x in items :: exists g :: g in groups && g.number == x.page)
  }

  function Labelled(n: int, lines: seq<string>): seq<Item> {
    seq(|lines|, i requires 0 <= i < |lines| => Item(n, lines[i]))
  }

  /** All lines of all pages, page after page. */
  function Flatten(groups: seq<Group>): seq<Item> {
    if groups == [] then []
    else
      var g := groups[|groups| - 1];
      Flatten(groups[..|groups| - 1]) + Labelled(g.number, g.lines)
  }

  lemma {:induction false} OnPageLabelled(n: int, lines: seq<string>, m: int)
    ensures OnPage(Labelled(n, lines), m) == if m == n then lines else []
  {
    if lines != [] {
      var init := lines[..|lines| - 1];
      assert Labelled(n, lines)[..|lines| - 1] == Labelled(n, init);
      OnPageLabelled(n, init, m);
    }
  }

  lemma {:induction false} FlattenFacts(groups: seq<Group>)
    requires Increasing(groups)
    ensures InPageOrder(Flatten(groups))
    ensures forall x | x in Flatten(groups) :: exists g :: g in groups && g.number == x.page
  {
    if groups != [] {
      var init, g := groups[..|groups| - 1], groups[|groups| - 1];
      assert groups == init + [g];
      FlattenFacts(init);
      forall x | x in Flatten(init) ensures x.page < g.number && exists h :: h in groups && h.number == x.page {
        var h :| h in init && h.number == x.page;
        assert h in groups;
      }
    }
  }

  lemma {:induction false} FlattenOnPage(groups: seq<Group>, g: Group)
    requires Increasing(groups) && g in groups
    ensures OnPage(Flatten(groups), g.number) == g.lines
  {
    var init, last := groups[..|groups| - 1], groups[|groups| - 1];
    assert groups == init + [last];
    OnPageConcat(Flatten(init), Labelled(last.number, last.lines), g.number);
    OnPageLabelled(last.number, last.lines, g.number);
    if g in init {
      FlattenOnPage(init, g);
    } else {
      FlattenFacts(init);
      OnPageEmpty(Flatten(init), g.number);
    }
  }

  /** Flattening the pages gives the stable sort of the paged elements by page number. */
  lemma PagesAreAStableSort(groups: seq<Group>, items: seq<Item>)
    requires IsGrouping(groups, items)
    ensures IsStableSortOf(Flatten(groups), items)
  {
    FlattenFacts(groups);
    forall n ensures OnPage(Flatten(groups), n) == OnPage(items, n) {
      if g :| g in groups && g.number == n {
        FlattenOnPage(groups, g);
      } else {
        OnPageEmpty(Flatten(groups), n);
        OnPageEmpty(items, n);
      }
    }
  }

  // ---- Joining -------------------------------------------------------------

  /** The page texts. */
  function Joined(groups: seq<Group>): seq<PageText> {
    seq(|groups|, i requires 0 <= i < |groups| => PageText(groups[i].number, JoinLines(groups[i].lines)))
  }

  function PageTexts(pages: seq<PageText>): seq<string> {
    seq(|pages|, i requires 0 <= i < |pages| => pages[i].text)
  }

  lemma {:induction false} JoinOfJoins(groups: seq<Group>)
    requires forall g | g in groups :: g.lines != []
    ensures JoinLines(PageTexts(Joined(groups))) == JoinLines(Texts(Flatten(groups)))
    ensures groups != [] ==> Flatten(groups) != []
  {
    if groups != [] {
      var init, g := groups[..|groups| - 1], groups[|groups| - 1];
      JoinOfJoins(init);
      var before := Texts(Flatten(init));
      assert Texts(Flatten(groups)) == before + g.lines;
      assert PageTexts(Joined(groups))[..|init|] == PageTexts(Joined(init));
      if init == [] {
        assert before + g.lines == g.lines;
      } else {
        JoinConcat(before, g.lines);
      }
    }
  }

  lemma {:induction false} AllPaged(elements: seq<Element>)
    requires forall e | e in elements && Strip(e.text) != [] :: e.page.Some?
    ensures Texts(Items(elements)) == Kept(elements)
  {
    if elements != [] {
      assert elements[|elements| - 1] in elements;
      AllPaged(elements[..|elements| - 1]);
    }
  }

  /** When every non-empty element has a page and they come in page order, the page texts
      joined with newlines are the raw text. */
  lemma InOrderPagesGiveRawText(elements: seq<Element>, groups: seq<Group>)
    requires IsGrouping(groups, Items(elements)) && InPageOrder(Items(elements))
    requires forall e | e in elements && Strip(e.text) != [] :: e.page.Some?
    ensures JoinLines(PageTexts(Joined(groups))) == JoinLines(Kept(elements))
  {
    PagesAreAStableSort(groups, Items(elements));
    StableSortIsUnique(Flatten(groups), Items(elements));
    JoinOfJoins(groups);
    AllPaged(elements);
  }

  // ---- The loop ------------------------------------------------------------

  ghost predicate Collects(pages: map<int, seq<string>>, items: seq<Item>) {
    && (forall n | n in pages :: pages[n] != [] && pages[n] == OnPage(items, n))
    && (forall x | x in items :: x.page in pages)
  }

  /** pages.setdefault(n, []).append(text) */
  function Appended(pages: map<int, seq<string>>, n: int, text: string): map<int, seq<string>> {
    pages[n := (if n in pages then pages[n] else []) + [text]]
  }

  lemma OneMoreItem(pages: map<int, seq<string>>, items: seq<Item>, x: Item)
    requires Collects(pages, items)
    ensures Collects(Appended(pages, x.page, x.text), items + [x])
  {
    OnPageEmpty(items, x.page);
    assert (items + [x])[..|items|] == items;
  }

  lemma OneMoreElement(pages: map<int, seq<string>>, elements: seq<Element>, e: Element)
    requires Collects(pages, Items(elements))
    ensures var text := Strip(e.text);
      && Kept(elements + [e]) == Kept(elements) + (if text == [] then [] else [text])
      && Collects(if text != [] && e.page.Some? then Appended(pages, e.page.value, text) else pages,
                  Items(elements + [e]))
  {
    assert (elements + [e])[..|elements|] == elements;
    if Strip(e.text) != [] && e.page.Some? {
      assert Items(elements + [e]) == Items(elements) + [Item(e.page.value, Strip(e.text))];
      OneMoreItem(pages, Items(elements), Item(e.page.value, Strip(e.text)));
    } else {
      assert Items(elements + [e]) == Items(elements);
    }
  }

  method ElementsToDocument(elements: seq<Element>) returns (raw: string, pages: seq<PageText>)
    ensures raw == JoinLines(Kept(elements))
    ensures forall i, j | 0 <= i < j < |pages| :: pages[i].number < pages[j].number
    ensures exists groups :: IsGrouping(groups, Items(elements)) && pages == Joined(groups)
    ensures (forall e | e in elements && Strip(e.text) != [] :: e.page.Some?) && InPageOrder(Items(elements)) ==>
      JoinLines(PageTexts(pages)) == raw
  {
    var byPage: map<int, seq<string>> := map[];
    var allTexts: seq<string> := [];
    for i := 0 to |elements|
      invariant allTexts == Kept(elements[..i])
      invariant Collects(byPage, Items(elements[..i]))
    {
      assert elements[..i + 1] == elements[..i] + [elements[i]];
      OneMoreElement(byPage, elements[..i], elements[i]);
      var text := Strip(elements[i].text);
      if text != [] {
        allTexts := allTexts + [text];
        if elements[i].page.Some? {
          byPage := Appended(byPage, elements[i].page.value, text);
        }
      }
    }
    assert elements[..|elements|] == elements;
    raw := JoinLines(allTexts);
    pages := PagesList(byPage, Items(elements));
    if (forall e | e in elements && Strip(e.text) != [] :: e.page.Some?) && InPageOrder(Items(elements)) {
      ghost var groups :| IsGrouping(groups, Items(elements)) && pages == Joined(groups);
      InOrderPagesGiveRawText(elements, groups);
    }
  }

  /** The entries sorted by page number, the texts of each joined. */
  method PagesList(byPage: map<int, seq<string>>, ghost items: seq<Item>) returns (pages: seq<PageText>)
    requires Collects(byPage, items)
    ensures forall i, j | 0 <= i < j < |pages| :: pages[i].number < pages[j].number
    ensures exists groups :: IsGrouping(groups, items) && pages == Joined(groups)
  {
    var numbers := Sorted(byPage.Keys);
    assert forall i | 0 <= i < |numbers| :: numbers[i] in numbers;
    var groups := seq(|numbers|, i requires 0 <= i < |numbers| => Group(numbers[i], byPage[numbers[i]]));
    pages := Joined(groups);
    GroupsOfNumbers(byPage, numbers, groups, items);
  }

  lemma GroupsOfNumbers(pages: map<int, seq<string>>, numbers: seq<int>, groups: seq<Group>, items: seq<Item>)
    requires Collects(pages, items) && forall n :: n in numbers <==> n in pages
    requires forall i | 0 <= i < |numbers| :: numbers[i] in pages
    requires forall i, j | 0 <= i < j < |numbers| :: numbers[i] < numbers[j]
    requires |groups| == |numbers| && forall i | 0 <= i < |groups| :: groups[i] == Group(numbers[i], pages[numbers[i]])
    ensures IsGrouping(groups, items)
  {
    forall x | x in items ensures exists g :: g in groups && g.number == x.page {
      var i :| 0 <= i < |numbers| && numbers[i] == x.page;
      assert groups[i] in groups;
    }
  }

  /** The keys in increasing order. */
  method Sorted(keys: set<int>) returns (r: seq<int>)
    ensures forall i, j | 0 <= i < j < |r| :: r[i] < r[j]
    ensures forall n :: n in r <==> n in keys
  {
    r := [];
    var rest := keys;
    while rest != {}
      invariant forall i, j | 0 <= i < j < |r| :: r[i] < r[j]
      invariant forall n :: n in keys <==> n in r || n in rest
      invariant forall n, k | n in r && k in rest :: n < k
    {
      LeastExists(rest);
      var m :| m in rest && forall k | k in rest :: m <= k;
      assert forall i | 0 <= i < |r| :: r[i] in r;
      r := r + [m];
      rest := rest - {m};
    }
  }

  lemma {:induction false} LeastExists(s: set<int>)
    requires s != {}
    ensures exists m :: m in s && forall k | k in s :: m <= k
  {
    var x := SomeMember(s);
    var others := s - {x};
    assert forall k | k in s :: k == x || k in others;
    if others != {} {
      LeastExists(others);
      var m :| m in others && forall k | k in others :: m <= k;
      var least := if x <= m then x else m;
      assert least in s;
    }
  }
}

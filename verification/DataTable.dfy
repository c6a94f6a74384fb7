// frontend/components/DataTableMaster.tsx: HTML escaping for the XLS and PDF exports, and the component's
// paging and selection state. The sorted list the pages are cut from is any sequence of row keys.
module DataTable {
  import opened Basics

  // ----- escHtml -----

  /** `s.replace(/c/g, entity)`. */
  function Replace(s: string, c: char, entity: string): string {
    if s == [] then [] else (if s[0] == c then entity else [s[0]]) + Replace(s[1..], c, entity)
  }

  const AMP := "&amp;"
  const LT := "&lt;"
  const GT := "&gt;"
  const QUOT := "&quot;"

  /** The four passes, in the order the code makes them. */
  function EscHtml(s: string): string {
    Replace(Replace(Replace(Replace(s, '&', AMP), '<', LT), '>', GT), '\"', QUOT)
  }

  function Entity(c: char): string {
    if c == '&' then AMP else if c == '<' then LT else if c == '>' then GT else if c == '\"' then QUOT else [c]
  }

  /** One pass over the original characters. */
  function Escaped(s: string): string {
    if s == [] then [] else Entity(s[0]) + Escaped(s[1..])
  }

  lemma {:induction false} ReplaceConcat(a: string, b: string, c: char, entity: string)
    ensures Replace(a + b, c, entity) == Replace(a, c, entity) + Replace(b, c, entity)
  {
    if a == [] {
      assert a + b == b;
    } else {
      var head := if a[0] == c then entity else [a[0]];
      ReplaceConcat(a[1..], b, c, entity);
      assert (a + b)[0] == a[0] && (a + b)[1..] == a[1..] + b;
      assert Replace(a + b, c, entity) == head + (Replace(a[1..], c, entity) + Replace(b, c, entity));
    }
  }

  /** Text without the character passes through unchanged. */
  lemma {:induction false} ReplaceAbsent(a: string, c: char, entity: string)
    requires c !in a
    ensures Replace(a, c, entity) == a
  {
    if a != [] {
      ReplaceAbsent(a[1..], c, entity);
    }
  }

  lemma ReplaceOne(c: char, d: char, entity: string)
    ensures Replace([c], d, entity) == if c == d then entity else [c]
  {
    assert Replace([c], d, entity) == (if c == d then entity else [c]) + Replace([], d, entity);
  }

  lemma AmpPasses()
    ensures EscHtml(['&']) == AMP
  {
    hide Replace;
    ReplaceOne('&', '&', AMP);
    ReplaceAbsent(AMP, '<', LT);
    ReplaceAbsent(AMP, '>', GT);
    ReplaceAbsent(AMP, '\"', QUOT);
  }

  lemma LtPasses()
    ensures EscHtml(['<']) == LT
  {
    hide Replace;
    ReplaceOne('<', '&', AMP);
    ReplaceOne('<', '<', LT);
    ReplaceAbsent(LT, '>', GT);
    ReplaceAbsent(LT, '\"', QUOT);
  }

  lemma GtPasses()
    ensures EscHtml(['>']) == GT
  {
    hide Replace;
    ReplaceOne('>', '&', AMP);
    ReplaceOne('>', '<', LT);
    ReplaceOne('>', '>', GT);
    ReplaceAbsent(GT, '\"', QUOT);
  }

  lemma EntityPasses(c: char)
    ensures EscHtml([c]) == Entity(c)
  {
    if c == '&' {
      AmpPasses();
    } else if c == '<' {
      LtPasses();
    } else if c == '>' {
      GtPasses();
    } else {
      ReplaceOne(c, '&', AMP);
      ReplaceOne(c, '<', LT);
      ReplaceOne(c, '>', GT);
      ReplaceOne(c, '\"', QUOT);
    }
  }

  /** The four passes do what one pass would: no pass touches an entity an earlier one wrote. */
  lemma {:induction false} FourPassesAreOne(s: string)
    ensures EscHtml(s) == Escaped(s)
  {
    if s != [] {
      var a, b := [s[0]], s[1..];
      assert s == a + b;
      ReplaceConcat(a, b, '&', AMP);
      var a1, b1 := Replace(a, '&', AMP), Replace(b, '&', AMP);
      ReplaceConcat(a1, b1, '<', LT);
      var a2, b2 := Replace(a1, '<', LT), Replace(b1, '<', LT);
      ReplaceConcat(a2, b2, '>', GT);
      ReplaceConcat(Replace(a2, '>', GT), Replace(b2, '>', GT), '\"', QUOT);
      EntityPasses(s[0]);
      FourPassesAreOne(b);
    }
  }

  /** What a browser shows for text holding the four entities. */
  function Shown(html: string): string
    decreases |html|
  {
    if html == [] then []
    else if AMP <= html then "&" + Shown(html[|AMP|..])
    else if LT <= html then "<" + Shown(html[|LT|..])
    else if GT <= html then ">" + Shown(html[|GT|..])
    else if QUOT <= html then "\"" + Shown(html[|QUOT|..])
    else [html[0]] + Shown(html[1..])
  }

  lemma ShownEntity(c: char, t: string)
    ensures Shown(Entity(c) + t) == [c] + Shown(t)
  {
    var html := Entity(c) + t;
    assert html[|Entity(c)|..] == t;
    assert html[0] == Entity(c)[0];
    if c == '&' {
      assert AMP <= html;
    } else if c == '<' {
      assert html[1] == 'l' && AMP[1] == 'a' && LT <= html;
    } else if c == '>' {
      assert html[1] == 'g' && AMP[1] == 'a' && LT[1] == 'l' && GT <= html;
    } else if c == '\"' {
      assert html[1] == 'q' && AMP[1] == 'a' && LT[1] == 'l' && GT[1] == 'g' && QUOT <= html;
    } else {
      assert AMP[0] == LT[0] == GT[0] == QUOT[0] == '&';
    }
  }

  lemma EntityNoMarkup(c: char)
    ensures '<' !in Entity(c) && '>' !in Entity(c) && '\"' !in Entity(c)
  {
  }

  /** An exported cell shows as the cell's own text. */
  lemma {:induction false} EscHtmlShowsBack(s: string)
    ensures Shown(EscHtml(s)) == s
  {
    FourPassesAreOne(s);
    hide Shown, EscHtml, Entity;
    if s == [] {
      ShownNothing();
    } else {
      EscHtmlShowsBack(s[1..]);
      FourPassesAreOne(s[1..]);
      ShownEntity(s[0], Escaped(s[1..]));
      assert s == [s[0]] + s[1..];
    }
  }

  lemma ShownNothing()
    ensures Shown([]) == []
  {
  }

  /** An exported cell holds no character that could open or close a tag or an attribute. */
  lemma {:induction false} EscHtmlNoMarkup(s: string)
    ensures '<' !in EscHtml(s) && '>' !in EscHtml(s) && '\"' !in EscHtml(s)
  {
    FourPassesAreOne(s);
    hide EscHtml, Entity;
    if s != [] {
      EscHtmlNoMarkup(s[1..]);
      FourPassesAreOne(s[1..]);
      EntityNoMarkup(s[0]);
    }
  }

  // ----- Pages -----

  /** `Math.max(1, Math.ceil(n / size))`. */
  function TotalPages(n: nat, size: nat): (pages: nat)
    requires size > 0
    ensures pages >= 1
  {
    var pages := (n + size - 1) / size;
    if pages < 1 then 1 else pages
  }

  /** There are just enough pages. */
  lemma PagesCover(n: nat, size: nat)
    requires size > 0
    ensures n <= TotalPages(n, size) * size
    ensures n > 0 ==> (TotalPages(n, size) - 1) * size < n
  {
    var m := n + size - 1;
    assert m == (m / size) * size + m % size;
  }

  /** `keys.slice(lo, hi)`. */
  function Slice(keys: seq<string>, lo: nat, hi: nat): seq<string> {
    if Min(hi, |keys|) <= lo then [] else keys[lo..Min(hi, |keys|)]
  }

  /** The rows of page `page`, counted from 1 and clamped to the last page. */
  function PageData(keys: seq<string>, page: nat, size: nat): seq<string>
    requires size > 0 && page >= 1
  {
    var safe := Min(page, TotalPages(|keys|, size));
    Slice(keys, (safe - 1) * size, safe * size)
  }

  function FirstPages(keys: seq<string>, size: nat, p: nat): seq<string>
    requires size > 0
  {
    if p == 0 then [] else FirstPages(keys, size, p - 1) + PageData(keys, p, size)
  }

  lemma SliceExtends(keys: seq<string>, lo: nat, hi: nat)
    requires lo <= hi
    ensures keys[..Min(lo, |keys|)] + Slice(keys, lo, hi) == keys[..Min(hi, |keys|)]
  {
  }

  lemma {:induction false} FirstPagesArePrefix(keys: seq<string>, size: nat, p: nat)
    requires size > 0 && p <= TotalPages(|keys|, size)
    ensures FirstPages(keys, size, p) == keys[..Min(p * size, |keys|)]
  {
    hide TotalPages, Slice;
    if p > 0 {
      FirstPagesArePrefix(keys, size, p - 1);
      assert (p - 1) * size <= p * size;
      SliceExtends(keys, (p - 1) * size, p * size);
    }
  }

  /** Page after page, the user sees the whole sorted list once and in order. */
  lemma PagesAreTheList(keys: seq<string>, size: nat)
    requires size > 0
    ensures FirstPages(keys, size, TotalPages(|keys|, size)) == keys
  {
    FirstPagesArePrefix(keys, size, TotalPages(|keys|, size));
    PagesCover(|keys|, size);
  }

  /** A page holds its `size` rows of the list, fewer only on the last page; past the last page the last is shown. */
  lemma PageHolds(keys: seq<string>, page: nat, size: nat, i: nat)
    requires size > 0 && page >= 1
    ensures page > TotalPages(|keys|, size) ==>
      PageData(keys, page, size) == PageData(keys, TotalPages(|keys|, size), size)
    ensures page <= TotalPages(|keys|, size) ==>
      |PageData(keys, page, size)| == if page * size <= |keys| then size else |keys| - (page - 1) * size
    ensures page <= TotalPages(|keys|, size) && i < |PageData(keys, page, size)| ==>
      (page - 1) * size + i < |keys| && PageData(keys, page, size)[i] == keys[(page - 1) * size + i]
  {
    if page <= TotalPages(|keys|, size) {
      PageStarts(|keys|, page, size);
    }
  }

  lemma PageStarts(n: nat, page: nat, size: nat)
    requires size > 0 && 1 <= page <= TotalPages(n, size)
    ensures (page - 1) * size <= n && page * size == (page - 1) * size + size
  {
    PagesCover(n, size);
    if page > 1 {
      assert (page - 1) * size <= (TotalPages(n, size) - 1) * size;
    }
  }

  // ----- Component state -----

  datatype SortDir = ASC | DESC

  function Toggled(selected: set<string>, page: seq<string>): set<string> {
    var keys := set k | k in page;
    if page != [] && keys <= selected then selected - keys else selected + keys
  }

  /** Toggling a page twice restores the selection exactly when the page was wholly selected or wholly not. */
  lemma ToggleAllTwice(selected: set<string>, page: seq<string>)
    ensures Toggled(Toggled(selected, page), page) == selected <==>
      ((set k | k in page) <= selected || (set k | k in page) !! selected)
  {
    var keys := set k | k in page;
    if page != [] {
      assert page[0] in keys;
      if keys <= selected {
        assert page[0] !in Toggled(selected, page);
        assert (selected - keys) + keys == selected;
      } else {
        assert keys <= Toggled(selected, page);
        assert Toggled(Toggled(selected, page), page) == selected - keys;
        assert selected - keys == selected <==> keys !! selected;
      }
    } else {
      assert keys == {};
    }
  }

  /** A page wholly selected is cleared; any other, selected in part or not at all, is selected. */
  lemma ToggleAllDecides(selected: set<string>, page: seq<string>, k: string)
    ensures k in page ==>
      (k in Toggled(selected, page) <==> exists other :: other in page && other !in selected)
    ensures k !in page ==> (k in Toggled(selected, page) <==> k in selected)
  {
    var keys := set key | key in page;
    assert k in keys <==> k in page;
    if other :| other in page && other !in selected {
      assert other in keys;
    }
  }

  class Table {
    var sortKey: Option<string>
    var sortDir: SortDir
    var selected: set<string>

    constructor (sortKey: Option<string>, sortDir: SortDir)
      ensures this.sortKey == sortKey && this.sortDir == sortDir && selected == {}
    {
      this.sortKey, this.sortDir, this.selected := sortKey, sortDir, {};
    }

    /** A click on a column header: reverse the current sort, or sort ascending by a new column. */
    method HandleSort(key: string)
      modifies this`sortKey, this`sortDir
      ensures sortKey == Some(key)
      ensures sortDir == DESC <==> (old(sortKey) == Some(key) && old(sortDir) == ASC)
    {
      if sortKey == Some(key) {
        sortDir := if sortDir == ASC then DESC else ASC;
      } else {
        sortKey, sortDir := Some(key), ASC;
      }
    }

    method ToggleRow(key: string)
      modifies this`selected
      ensures key in selected <==> key !in old(selected)
      ensures selected - {key} == old(selected) - {key}
    {
      selected := if key in selected then selected - {key} else selected + {key};
    }

    /** The header checkbox: clear the page if it is wholly selected, else select it. No other row changes. */
    method ToggleAll(pageKeys: seq<string>)
      modifies this`selected
      ensures selected == Toggled(old(selected), pageKeys)
      ensures forall k :: k !in pageKeys ==> (k in selected <==> k in old(selected))
      ensures forall k, l :: k in pageKeys && l in pageKeys ==> (k in selected <==> l in selected)
    {
      ghost var before := selected;
      var allPageSel := |pageKeys| > 0 && forall k :: k in pageKeys ==> k in selected;
      for i := 0 to |pageKeys|
        invariant selected == if allPageSel then before - (set k | k in pageKeys[..i])
                              else before + (set k | k in pageKeys[..i])
      {
        assert pageKeys[..i + 1] == pageKeys[..i] + [pageKeys[i]];
        selected := if allPageSel then selected - {pageKeys[i]} else selected + {pageKeys[i]};
      }
      assert pageKeys[..|pageKeys|] == pageKeys;
    }
  }
}

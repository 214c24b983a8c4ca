/**
 * The search-and-tab filter of the creative library page
 * (`app/dashboard/creative/page.tsx`) and its "Clear All Filters" reset.
 */
module CreativeLibrary {
  import opened Strings

  datatype CreativeType = Image | Video | Copy

  /** The fields of a creative the filter looks at. */
  datatype Creative = Creative(id: string, name: string, kind: CreativeType)

  /** The selected tab: "all" or one creative type. */
  datatype TypeFilter = All | OfType(kind: CreativeType)

  /** The page's two pieces of filter state. */
  datatype View = View(filter: TypeFilter, searchQuery: string)

  // ------------------------------------------------------------ text

  /** `toLowerCase` on ASCII letters; every other character is kept. */
  function LowerChar(c: char): char
  {
    if 'A' <= c <= 'Z' then (c as int + 32) as char else c
  }

  function UpperChar(c: char): char
  {
    if 'a' <= c <= 'z' then (c as int - 32) as char else c
  }

  function Lower(s: string): (r: string)
    ensures |r| == |s| && forall i :: 0 <= i < |s| ==> r[i] == LowerChar(s[i])
  {
    if s == [] then [] else [LowerChar(s[0])] + Lower(s[1..])
  }

  function Upper(s: string): (r: string)
    ensures |r| == |s| && forall i :: 0 <= i < |s| ==> r[i] == UpperChar(s[i])
  {
    if s == [] then [] else [UpperChar(s[0])] + Upper(s[1..])
  }

  /** `String.prototype.includes`: `sub` occurs somewhere in `s` (the empty string always does). */
  predicate Includes(s: string, sub: string)
    decreases |s|
  {
    HasPrefix(s, sub) || (s != [] && Includes(s[1..], sub))
  }

  lemma {:induction false} IncludesEmpty(s: string)
    ensures Includes(s, "")
  {
  }

  // ------------------------------------------------------------ filter

  predicate Matches(c: Creative, filter: TypeFilter, searchQuery: string)
  {
    && (filter.All? || c.kind == filter.kind)
    && Includes(Lower(c.name), Lower(searchQuery))
  }

  /** `creatives.filter(c => matchesFilter && matchesSearch)` */
  function Filtered(creatives: seq<Creative>, filter: TypeFilter, searchQuery: string): seq<Creative>
  {
    if creatives == [] then []
    else (if Matches(creatives[0], filter, searchQuery) then [creatives[0]] else [])
         + Filtered(creatives[1..], filter, searchQuery)
  }

  /** `a` is `b` with some entries left out, the rest in their original order. */
  predicate IsSubsequence<T(==)>(a: seq<T>, b: seq<T>)
    decreases |b|
  {
    || a == []
    || (b != [] && ((a[0] == b[0] && IsSubsequence(a[1..], b[1..])) || IsSubsequence(a, b[1..])))
  }

  /**
   * The filtered list holds every matching creative exactly as often as the
   * input does, and nothing else.
   */
  lemma {:induction false} FilteredCounts(creatives: seq<Creative>, filter: TypeFilter, searchQuery: string, x: Creative)
    ensures multiset(Filtered(creatives, filter, searchQuery))[x] ==
      if Matches(x, filter, searchQuery) then multiset(creatives)[x] else 0
  {
    if creatives != [] {
      FilteredCounts(creatives[1..], filter, searchQuery, x);
      assert creatives == [creatives[0]] + creatives[1..];
    }
  }

  /** A creative is shown exactly when it is in the list, its type passes the tab, and its name contains the query. */
  lemma FilteredMembership(creatives: seq<Creative>, filter: TypeFilter, searchQuery: string, x: Creative)
    ensures x in Filtered(creatives, filter, searchQuery) <==>
      x in creatives && (filter.All? || x.kind == filter.kind) && Includes(Lower(x.name), Lower(searchQuery))
  {
    FilteredCounts(creatives, filter, searchQuery, x);
  }

  /** The filtered list keeps the input's order. */
  lemma {:induction false} FilteredIsSubsequence(creatives: seq<Creative>, filter: TypeFilter, searchQuery: string)
    ensures IsSubsequence(Filtered(creatives, filter, searchQuery), creatives)
  {
    if creatives != [] {
      FilteredIsSubsequence(creatives[1..], filter, searchQuery);
      var rest := Filtered(creatives[1..], filter, searchQuery);
      if Matches(creatives[0], filter, searchQuery) {
        assert Filtered(creatives, filter, searchQuery) == [creatives[0]] + rest;
        assert ([creatives[0]] + rest)[1..] == rest;
      } else {
        assert Filtered(creatives, filter, searchQuery) == rest;
      }
    }
  }

  /** With the "all" tab and an empty query every creative is shown, in order. */
  lemma {:induction false} NoFilterShowsAll(creatives: seq<Creative>)
    ensures Filtered(creatives, All, "") == creatives
  {
    if creatives != [] {
      IncludesEmpty(Lower(creatives[0].name));
      NoFilterShowsAll(creatives[1..]);
      assert creatives == [creatives[0]] + creatives[1..];
    }
  }

  /** Queries that agree letter by letter up to case select the same creatives. */
  lemma {:induction false} QueryCaseIrrelevant(creatives: seq<Creative>, filter: TypeFilter, q1: string, q2: string)
    requires |q1| == |q2| && forall i :: 0 <= i < |q1| ==> LowerChar(q1[i]) == LowerChar(q2[i])
    ensures Filtered(creatives, filter, q1) == Filtered(creatives, filter, q2)
  {
    assert Lower(q1) == Lower(q2);
    if creatives != [] {
      QueryCaseIrrelevant(creatives[1..], filter, q1, q2);
    }
  }

  /** Typing the query in capitals finds the same creatives. */
  lemma UpperCaseQuery(creatives: seq<Creative>, filter: TypeFilter, searchQuery: string)
    ensures Filtered(creatives, filter, Upper(searchQuery)) == Filtered(creatives, filter, searchQuery)
  {
    QueryCaseIrrelevant(creatives, filter, Upper(searchQuery), searchQuery);
  }

  /** Picking a type tab instead of "all" shows some of the same creatives, in the same order. */
  lemma {:induction false} TabNarrows(creatives: seq<Creative>, kind: CreativeType, searchQuery: string)
    ensures IsSubsequence(Filtered(creatives, OfType(kind), searchQuery), Filtered(creatives, All, searchQuery))
  {
    if creatives != [] {
      TabNarrows(creatives[1..], kind, searchQuery);
      var narrow := Filtered(creatives[1..], OfType(kind), searchQuery);
      var wide := Filtered(creatives[1..], All, searchQuery);
      var c := creatives[0];
      if Matches(c, OfType(kind), searchQuery) {
        assert Filtered(creatives, OfType(kind), searchQuery) == [c] + narrow;
        assert Filtered(creatives, All, searchQuery) == [c] + wide;
        assert ([c] + narrow)[1..] == narrow && ([c] + wide)[1..] == wide;
      } else if Matches(c, All, searchQuery) {
        assert Filtered(creatives, OfType(kind), searchQuery) == narrow;
        assert Filtered(creatives, All, searchQuery) == [c] + wide;
        assert ([c] + wide)[1..] == wide;
        assert IsSubsequence(narrow, [c] + wide);
      } else {
        assert Filtered(creatives, OfType(kind), searchQuery) == narrow;
        assert Filtered(creatives, All, searchQuery) == wide;
      }
    }
  }

  // ------------------------------------------------------------ page state

  /** The state the page starts in: `useState("all")` and `useState("")`. */
  const Initial := View(All, "")

  /** What the page lists for a view. */
  function Visible(creatives: seq<Creative>, view: View): seq<Creative>
  {
    Filtered(creatives, view.filter, view.searchQuery)
  }

  /** The "Clear All Filters" button: back to the "all" tab and an empty query. */
  function ClearAllFilters(view: View): (r: View)
    ensures r == Initial
  {
    View(All, "")
  }

  /** After "Clear All Filters" the whole library is listed again. */
  lemma ClearAllShowsEverything(creatives: seq<Creative>, view: View)
    ensures Visible(creatives, ClearAllFilters(view)) == creatives
  {
    NoFilterShowsAll(creatives);
  }
}

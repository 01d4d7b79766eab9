/** The emergency roster of src/views/EvacuationView.jsx: who was on site, who has been
    accounted for at the meeting point, and the list the marshal sees. */
module Evacuation {
  import opened VisitModel

  /** The roster tabs: 'all', 'missing' (the default) and 'safe'. */
  datatype Tab = ShowAll | ShowMissing | ShowSafe

  /** `activeEvacuationList` (src/views/EvacuationView.jsx:12-14): the checked-in visits,
      in store order. */
  function Roster(vs: seq<Visit>): (r: seq<Visit>)
    ensures |r| <= |vs|
    ensures forall v :: v in r <==> v in vs && v.status == CheckedIn
    ensures multiset(r) <= multiset(vs)
  {
    Filter(vs, (v: Visit) => v.status == CheckedIn)
  }

  /** The roster keeps store order: the roster of a concatenation is the concatenation of the
      rosters, and a single record is on it exactly when it is checked in. */
  lemma RosterKeepsStoreOrder(a: seq<Visit>, b: seq<Visit>, v: Visit)
    ensures Roster(a + b) == Roster(a) + Roster(b)
    ensures Roster([v]) == if v.status == CheckedIn then [v] else []
  {
    FilterKeepsOrder(a, b, (v: Visit) => v.status == CheckedIn);
    FilterOne(v, (v: Visit) => v.status == CheckedIn);
  }

  /** `!!accounted[id]`: an id never toggled is not safe. */
  predicate IsSafe(accounted: map<string, bool>, id: string) {
    id in accounted && accounted[id]
  }

  /** The ids currently marked safe. */
  function SafeIds(accounted: map<string, bool>): set<string> {
    set id | id in accounted && accounted[id]
  }

  /** `{ ...prev, [id]: !prev[id] }` (src/views/EvacuationView.jsx:45-47). */
  function Toggled(accounted: map<string, bool>, id: string): (r: map<string, bool>)
    ensures IsSafe(r, id) == !IsSafe(accounted, id)
    ensures forall other :: other != id ==> IsSafe(r, other) == IsSafe(accounted, other)
  {
    accounted[id := !IsSafe(accounted, id)]
  }

  /** Toggling the same id twice gives every id back its original safety. */
  lemma ToggleTwiceRestores(accounted: map<string, bool>, id: string, other: string)
    ensures IsSafe(Toggled(Toggled(accounted, id), id), other) == IsSafe(accounted, other)
  {
  }

  /** A toggle moves the safe count by exactly one, in the direction of the new value. */
  lemma ToggleMovesSafeCountByOne(accounted: map<string, bool>, id: string)
    ensures |SafeIds(Toggled(accounted, id))| ==
            |SafeIds(accounted)| + (if IsSafe(accounted, id) then -1 else 1)
  {
    var after := Toggled(accounted, id);
    if IsSafe(accounted, id) {
      assert SafeIds(after) == SafeIds(accounted) - {id};
    } else {
      assert SafeIds(after) == SafeIds(accounted) + {id};
    }
  }

  /** The header counters; `progress` is exact here (a real, not a float). */
  datatype Stats = Stats(total: nat, safe: nat, missing: int, progress: real)

  /** `stats` (src/views/EvacuationView.jsx:17-23): `safe` counts every id marked safe,
      whether or not it is still on the roster. */
  function RosterStats(roster: seq<Visit>, accounted: map<string, bool>): (s: Stats)
    ensures s.total == |roster| && s.safe == |SafeIds(accounted)|
    ensures s.missing + s.safe == s.total
    ensures s.total == 0 ==> s.progress == 0.0
    ensures s.total > 0 ==> s.progress * (s.total as real) == (s.safe as real) * 100.0
  {
    var total := |roster|;
    var safe := |SafeIds(accounted)|;
    Stats(total, safe, total - safe,
          if total == 0 then 0.0 else (safe as real / total as real) * 100.0)
  }

  /** The ids of the roster's rows. */
  function Ids(roster: seq<Visit>): set<string> {
    set v | v in roster :: v.id
  }

  lemma {:induction false} IdsCard(roster: seq<Visit>)
    ensures |Ids(roster)| <= |roster|
  {
    if roster != [] {
      IdsCard(roster[1..]);
      assert Ids(roster) == Ids(roster[1..]) + {roster[0].id};
    }
  }

  lemma {:induction false} SubsetCard(a: set<string>, b: set<string>)
    requires a <= b
    ensures |a| <= |b|
  {
    if b != {} {
      var x :| x in b;
      SubsetCard(a - {x}, b - {x});
    }
  }

  /** While every id marked safe is a roster row's id, nobody is counted twice and
      `missing` stays non-negative. */
  lemma MissingNonNegative(roster: seq<Visit>, accounted: map<string, bool>)
    requires SafeIds(accounted) <= Ids(roster)
    ensures 0 <= RosterStats(roster, accounted).missing <= |roster|
  {
    SubsetCard(SafeIds(accounted), Ids(roster));
    IdsCard(roster);
  }

  /** The board toggles only rows it displays (src/views/EvacuationView.jsx:175), so toggling
      keeps every id marked safe on the roster. */
  lemma ToggleKeepsSafeWithinRoster(roster: seq<Visit>, accounted: map<string, bool>, id: string)
    requires SafeIds(accounted) <= Ids(roster) && id in Ids(roster)
    ensures SafeIds(Toggled(accounted, id)) <= Ids(roster)
  {
  }

  /** `safe` also counts ids outside the roster, so a map naming an off-roster id as safe
      drives `missing` below zero. */
  lemma MissingCanBeNegative(v: Visit, other: string)
    requires other != v.id
    ensures RosterStats([v], map[v.id := true, other := true]).missing == -1
  {
    assert SafeIds(map[v.id := true, other := true]) == {v.id, other};
  }

  // ---------------------------------------------------------------------------------------
  // Search

  function LowerChar(c: char): char {
    if 'A' <= c <= 'Z' then (c as int + 32) as char else c
  }

  /** `toLowerCase()` on the ASCII letters: each capital becomes the letter 32 code points up,
      every other character stays, and no capital is left. */
  function Lower(s: string): (r: string)
    ensures |r| == |s|
    ensures forall i :: 0 <= i < |s| && 'A' <= s[i] <= 'Z' ==>
              'a' <= r[i] <= 'z' && r[i] as int == s[i] as int + 32
    ensures forall i :: 0 <= i < |s| && !('A' <= s[i] <= 'Z') ==> r[i] == s[i]
    ensures forall i :: 0 <= i < |r| ==> !('A' <= r[i] <= 'Z')
  {
    seq(|s|, i requires 0 <= i < |s| => LowerChar(s[i]))
  }

  /** `s.includes(sub)`, by recursion on the start position. */
  predicate Includes(s: string, sub: string) {
    (|sub| <= |s| && s[..|sub|] == sub) || (s != [] && Includes(s[1..], sub))
  }

  /** `sub` occurs in `s` starting at position i. */
  predicate OccursAt(s: string, sub: string, i: int) {
    0 <= i <= |s| - |sub| && s[i..i + |sub|] == sub
  }

  /** `Includes` agrees with the direct definition: `sub` occurs at some position of `s`. */
  lemma {:induction false} IncludesAt(s: string, sub: string)
    ensures Includes(s, sub) <==> exists i :: OccursAt(s, sub, i)
  {
    if |sub| <= |s| && s[..|sub|] == sub {
      assert OccursAt(s, sub, 0);
    }
    if s != [] {
      IncludesAt(s[1..], sub);
      if Includes(s[1..], sub) {
        var i :| OccursAt(s[1..], sub, i);
        assert s[1..][i..i + |sub|] == s[i + 1..i + 1 + |sub|];
        assert OccursAt(s, sub, i + 1);
      }
      if exists i :: OccursAt(s, sub, i) {
        var i :| OccursAt(s, sub, i);
        if i > 0 {
          assert s[1..][i - 1..i - 1 + |sub|] == s[i..i + |sub|];
          assert OccursAt(s[1..], sub, i - 1);
        }
      }
    }
  }

  /** The row filter of `displayedList` (src/views/EvacuationView.jsx:28-37): a non-empty search
      term decides alone (name or company, case-insensitively); otherwise the tab decides. */
  predicate Kept(v: Visit, accounted: map<string, bool>, tab: Tab, term: string)
    ensures term != "" ==>
              (Kept(v, accounted, tab, term) <==>
                 (exists i :: OccursAt(Lower(v.visitorName), Lower(term), i)) ||
                 (exists i :: OccursAt(Lower(v.company), Lower(term), i)))
    ensures term == "" ==>
              (Kept(v, accounted, tab, term) <==> tab == ShowAll || (tab == ShowSafe <==> IsSafe(accounted, v.id)))
  {
    IncludesAt(Lower(v.visitorName), Lower(term));
    IncludesAt(Lower(v.company), Lower(term));
    if term != "" then
      Includes(Lower(v.visitorName), Lower(term)) || Includes(Lower(v.company), Lower(term))
    else
      match tab
      case ShowMissing => !IsSafe(accounted, v.id)
      case ShowSafe => IsSafe(accounted, v.id)
      case ShowAll => true
  }

  /** Lower-casing twice is lower-casing once. */
  lemma LowerIdempotent(s: string)
    ensures Lower(Lower(s)) == Lower(s)
  {
  }

  /** The search is case-insensitive in the term: two terms that lower-case alike keep the
      same rows, whatever the tab. */
  lemma KeptIgnoresTermCase(v: Visit, accounted: map<string, bool>, tab: Tab, term1: string, term2: string)
    requires Lower(term1) == Lower(term2)
    ensures Kept(v, accounted, tab, term1) == Kept(v, accounted, tab, term2)
  {
    assert |term1| == |Lower(term1)| == |term2|;
  }

  /** The rows `displayedList` filters in (src/views/EvacuationView.jsx:28-37), in roster order. */
  function Selected(roster: seq<Visit>, accounted: map<string, bool>, tab: Tab, term: string): (r: seq<Visit>)
    ensures forall v :: v in r <==> v in roster && Kept(v, accounted, tab, term)
    ensures multiset(r) <= multiset(roster)
  {
    Filter(roster, (v: Visit) => Kept(v, accounted, tab, term))
  }

  /** The selection keeps roster order: the selection of a concatenation is the concatenation
      of the selections, and a single row is selected exactly when it is kept. */
  lemma SelectedKeepsRosterOrder(a: seq<Visit>, b: seq<Visit>, v: Visit,
                                 accounted: map<string, bool>, tab: Tab, term: string)
    ensures Selected(a + b, accounted, tab, term) == Selected(a, accounted, tab, term) + Selected(b, accounted, tab, term)
    ensures Selected([v], accounted, tab, term) == if Kept(v, accounted, tab, term) then [v] else []
  {
    FilterKeepsOrder(a, b, (v: Visit) => Kept(v, accounted, tab, term));
    FilterOne(v, (v: Visit) => Kept(v, accounted, tab, term));
  }

  // ---------------------------------------------------------------------------------------
  // Ordering: unaccounted first, stable

  /** The rows whose safety is `safe`, in their original order. */
  function WithSafety(s: seq<Visit>, accounted: map<string, bool>, safe: bool): (r: seq<Visit>)
    ensures |r| <= |s|
    ensures forall v :: v in r <==> v in s && IsSafe(accounted, v.id) == safe
  {
    if s == [] then []
    else (if IsSafe(accounted, s[0].id) == safe then [s[0]] else []) + WithSafety(s[1..], accounted, safe)
  }

  /** The `.sort(...)` of `displayedList` (src/views/EvacuationView.jsx:38-42). The comparator
      orders unaccounted before accounted and ties everything else; `Array.prototype.sort` is
      stable, so the result is the stable partition. */
  function UnaccountedFirst(s: seq<Visit>, accounted: map<string, bool>): (r: seq<Visit>)
    ensures multiset(r) == multiset(s)
  {
    WithSafetyPartition(s, accounted);
    WithSafety(s, accounted, false) + WithSafety(s, accounted, true)
  }

  /** `displayedList`. */
  function DisplayedList(roster: seq<Visit>, accounted: map<string, bool>, tab: Tab, term: string): (r: seq<Visit>)
    ensures forall v :: v in r <==> v in roster && Kept(v, accounted, tab, term)
    ensures multiset(r) <= multiset(roster)
  {
    UnaccountedFirst(Selected(roster, accounted, tab, term), accounted)
  }

  lemma {:induction false} WithSafetySplit(a: seq<Visit>, b: seq<Visit>, accounted: map<string, bool>, safe: bool)
    ensures WithSafety(a + b, accounted, safe) == WithSafety(a, accounted, safe) + WithSafety(b, accounted, safe)
  {
    if a != [] {
      var head := if IsSafe(accounted, a[0].id) == safe then [a[0]] else [];
      assert (a + b)[0] == a[0];
      assert (a + b)[1..] == a[1..] + b;
      WithSafetySplit(a[1..], b, accounted, safe);
      assert WithSafety(a + b, accounted, safe) == head + WithSafety(a[1..] + b, accounted, safe);
      assert WithSafety(a, accounted, safe) == head + WithSafety(a[1..], accounted, safe);
      assert head + (WithSafety(a[1..], accounted, safe) + WithSafety(b, accounted, safe)) ==
             (head + WithSafety(a[1..], accounted, safe)) + WithSafety(b, accounted, safe);
    } else {
      assert a + b == b;
    }
  }

  lemma {:induction false} WithSafetyIdempotent(s: seq<Visit>, accounted: map<string, bool>, safe: bool)
    ensures WithSafety(WithSafety(s, accounted, safe), accounted, safe) == WithSafety(s, accounted, safe)
    ensures WithSafety(WithSafety(s, accounted, !safe), accounted, safe) == []
  {
    if s != [] {
      WithSafetyIdempotent(s[1..], accounted, safe);
      var head := if IsSafe(accounted, s[0].id) == safe then [s[0]] else [];
      var headOther := if IsSafe(accounted, s[0].id) == !safe then [s[0]] else [];
      WithSafetySplit(head, WithSafety(s[1..], accounted, safe), accounted, safe);
      WithSafetySplit(headOther, WithSafety(s[1..], accounted, !safe), accounted, safe);
    }
  }

  /** The two groups together hold exactly the rows of the input. */
  lemma {:induction false} WithSafetyPartition(s: seq<Visit>, accounted: map<string, bool>)
    ensures multiset(WithSafety(s, accounted, false)) + multiset(WithSafety(s, accounted, true)) == multiset(s)
  {
    if s != [] {
      var x := s[0];
      WithSafetyPartition(s[1..], accounted);
      assert WithSafety(s, accounted, false) ==
             (if !IsSafe(accounted, x.id) then [x] else []) + WithSafety(s[1..], accounted, false);
      assert WithSafety(s, accounted, true) ==
             (if IsSafe(accounted, x.id) then [x] else []) + WithSafety(s[1..], accounted, true);
      assert s == [x] + s[1..];
      assert multiset(s) == multiset{x} + multiset(s[1..]);
    }
  }

  /** The displayed order is a permutation of the selection, with every unaccounted row before
      every accounted row, and the order inside each group is that of the roster. */
  lemma UnaccountedFirstIsStableSort(s: seq<Visit>, accounted: map<string, bool>)
    ensures multiset(UnaccountedFirst(s, accounted)) == multiset(s)
    ensures forall i, j :: 0 <= i < j < |UnaccountedFirst(s, accounted)| ==>
              !(IsSafe(accounted, UnaccountedFirst(s, accounted)[i].id) &&
                !IsSafe(accounted, UnaccountedFirst(s, accounted)[j].id))
    ensures WithSafety(UnaccountedFirst(s, accounted), accounted, false) == WithSafety(s, accounted, false)
    ensures WithSafety(UnaccountedFirst(s, accounted), accounted, true) == WithSafety(s, accounted, true)
  {
    var lo := WithSafety(s, accounted, false);
    var hi := WithSafety(s, accounted, true);
    assert UnaccountedFirst(s, accounted) == lo + hi;
    WithSafetySplit(lo, hi, accounted, false);
    WithSafetySplit(lo, hi, accounted, true);
    WithSafetyIdempotent(s, accounted, false);
    WithSafetyIdempotent(s, accounted, true);
    forall i, j | 0 <= i < j < |lo + hi|
      ensures !(IsSafe(accounted, (lo + hi)[i].id) && !IsSafe(accounted, (lo + hi)[j].id))
    {
      if i < |lo| {
        assert (lo + hi)[i] in lo;
      } else {
        assert (lo + hi)[j] in hi;
      }
    }
  }

  /** Selecting and splitting by safety commute: each group of the selection is the selection
      of that group of the roster. */
  lemma {:induction false} SelectionCommutesWithSafety(roster: seq<Visit>, accounted: map<string, bool>,
                                                       tab: Tab, term: string, safe: bool)
    ensures WithSafety(Selected(roster, accounted, tab, term), accounted, safe) ==
            Selected(WithSafety(roster, accounted, safe), accounted, tab, term)
  {
    if roster != [] {
      var x, rest := roster[0], roster[1..];
      var head := if Kept(x, accounted, tab, term) then [x] else [];
      var headSafe := if IsSafe(accounted, x.id) == safe then [x] else [];
      assert roster == [x] + rest;
      SelectedKeepsRosterOrder([x], rest, x, accounted, tab, term);
      SelectedKeepsRosterOrder(headSafe, WithSafety(rest, accounted, safe), x, accounted, tab, term);
      WithSafetySplit(head, Selected(rest, accounted, tab, term), accounted, safe);
      SelectionCommutesWithSafety(rest, accounted, tab, term, safe);
      assert [x][1..] == [];
      assert WithSafety(head, accounted, safe) == Selected(headSafe, accounted, tab, term);
    }
  }

  /** The marshal sees the selected unaccounted rows in roster order, then the selected
      accounted rows in roster order. */
  lemma DisplayedListInRosterOrder(roster: seq<Visit>, accounted: map<string, bool>, tab: Tab, term: string)
    ensures DisplayedList(roster, accounted, tab, term) ==
            Selected(WithSafety(roster, accounted, false), accounted, tab, term) +
            Selected(WithSafety(roster, accounted, true), accounted, tab, term)
  {
    SelectionCommutesWithSafety(roster, accounted, tab, term, false);
    SelectionCommutesWithSafety(roster, accounted, tab, term, true);
  }

  /** What the marshal sees is drawn from the roster: no row appears that is not on it, and no
      row appears more often than on it. */
  lemma DisplayedWithinRoster(roster: seq<Visit>, accounted: map<string, bool>, tab: Tab, term: string)
    ensures multiset(DisplayedList(roster, accounted, tab, term)) <= multiset(roster)
    ensures forall v :: v in DisplayedList(roster, accounted, tab, term) ==> v in roster
  {
    UnaccountedFirstIsStableSort(Selected(roster, accounted, tab, term), accounted);
    forall v | v in DisplayedList(roster, accounted, tab, term) ensures v in roster {
      assert v in multiset(DisplayedList(roster, accounted, tab, term));
    }
  }

  /** A non-empty search term overrides the tab. */
  lemma SearchOverridesTab(roster: seq<Visit>, accounted: map<string, bool>, tab1: Tab, tab2: Tab, term: string)
    requires term != ""
    ensures DisplayedList(roster, accounted, tab1, term) == DisplayedList(roster, accounted, tab2, term)
  {
    assert Selected(roster, accounted, tab1, term) == Selected(roster, accounted, tab2, term) by {
      SelectedIgnoresTab(roster, accounted, tab1, tab2, term);
    }
  }

  lemma SelectedIgnoresTab(roster: seq<Visit>, accounted: map<string, bool>, tab1: Tab, tab2: Tab, term: string)
    requires term != ""
    ensures Selected(roster, accounted, tab1, term) == Selected(roster, accounted, tab2, term)
  {
    FilterAgrees(roster, (v: Visit) => Kept(v, accounted, tab1, term), (v: Visit) => Kept(v, accounted, tab2, term));
  }

  /** Without a search term the 'missing' tab shows exactly the unaccounted roster rows and the
      'safe' tab exactly the accounted ones. */
  lemma TabsSplitRoster(roster: seq<Visit>, accounted: map<string, bool>, v: Visit)
    ensures v in DisplayedList(roster, accounted, ShowMissing, "") <==> v in roster && !IsSafe(accounted, v.id)
    ensures v in DisplayedList(roster, accounted, ShowSafe, "") <==> v in roster && IsSafe(accounted, v.id)
    ensures v in DisplayedList(roster, accounted, ShowAll, "") <==> v in roster
  {
    assert Kept(v, accounted, ShowMissing, "") <==> !IsSafe(accounted, v.id);
    assert Kept(v, accounted, ShowSafe, "") <==> IsSafe(accounted, v.id);
    assert Kept(v, accounted, ShowAll, "");
  }

  /** The roster board's own state (src/views/EvacuationView.jsx:7-9). */
  class Board {
    var accounted: map<string, bool>
    var filter: Tab
    var searchTerm: string

    constructor ()
      ensures accounted == map[] && filter == ShowMissing && searchTerm == ""
    {
      accounted := map[];
      filter := ShowMissing;
      searchTerm := "";
    }

    /** `toggleSafety` (src/views/EvacuationView.jsx:45-47). */
    method ToggleSafety(id: string)
      modifies this`accounted
      ensures accounted == Toggled(old(accounted), id)
    {
      accounted := accounted[id := !IsSafe(accounted, id)];
    }

    /** The tab buttons. */
    method SetFilter(tab: Tab)
      modifies this`filter
      ensures filter == tab
    {
      filter := tab;
    }

    /** The search box. */
    method SetSearchTerm(term: string)
      modifies this`searchTerm
      ensures searchTerm == term
    {
      searchTerm := term;
    }
  }
}

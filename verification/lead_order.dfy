/** The recruiter board's projection of the lead list: a case-insensitive
    search, a stable sort that puts High-priority leads first and newer leads
    before older ones, and the split into the five status columns. */
module LeadOrder {
  import opened Types
  import opened Seqs
  import opened Text

  /** Whether a lead's name, email or position contains the lower-cased query. */
  predicate Matches(l: Lead, lower: string): (b: bool)
    ensures lower == [] ==> b
    ensures b ==> |lower| <= |l.fullName| || |lower| <= |l.email| || |lower| <= |l.postAppliedFor|
  {
    Contains(Lower(l.fullName), lower)
    || Contains(Lower(l.email), lower)
    || Contains(Lower(l.postAppliedFor), lower)
  }

  /** The search predicate for an already lower-cased query. */
  function MatchesQuery(lower: string): Lead -> bool {
    (l: Lead) => Matches(l, lower)
  }

  /** The search box: an empty query keeps everything; otherwise a lead is
      kept exactly when it matches, as often as it occurs, and the kept leads
      stay in order (FilterLeadsConcat). */
  function FilterLeads(leads: seq<Lead>, query: string): (r: seq<Lead>)
    ensures query == "" ==> r == leads
    ensures query != "" ==> forall l :: l in r <==> l in leads && Matches(l, Lower(query))
    ensures query != "" ==>
              forall l :: multiset(r)[l] == if Matches(l, Lower(query)) then multiset(leads)[l] else 0
    ensures |r| <= |leads|
  {
    if query == "" then leads
    else Filter(leads, MatchesQuery(Lower(query)))
  }

  /** Searching a concatenation is concatenating the searches: the search
      never reorders the leads it keeps. */
  lemma FilterLeadsConcat(a: seq<Lead>, b: seq<Lead>, query: string)
    ensures FilterLeads(a + b, query) == FilterLeads(a, query) + FilterLeads(b, query)
  {
    if query != "" {
      FilterConcat(a, b, MatchesQuery(Lower(query)));
    }
  }

  /** The board's comparator: negative when `a` goes first. A High lead goes
      before any other; within a tier the newer lead goes first; zero exactly
      for two leads of one tier created at the same time. */
  function Compare(a: Lead, b: Lead): (r: int)
    ensures Tier(a) < Tier(b) ==> r < 0
    ensures Tier(a) > Tier(b) ==> r > 0
    ensures Tier(a) == Tier(b) ==> (r < 0 <==> a.createdAt > b.createdAt) && (r > 0 <==> a.createdAt < b.createdAt)
    ensures r == 0 <==> Tier(a) == Tier(b) && a.createdAt == b.createdAt
  {
    if a.priority == High && b.priority != High then -1
    else if a.priority != High && b.priority == High then 1
    else b.createdAt - a.createdAt
  }

  /** 0 for High, 1 for Medium and Low, which the comparator does not separate. */
  function Tier(l: Lead): int {
    if l.priority == High then 0 else 1
  }

  /** No lead is placed after one the comparator would put behind it. */
  predicate Sorted(s: seq<Lead>) {
    forall i, j :: 0 <= i < j < |s| ==> Compare(s[i], s[j]) <= 0
  }

  /** The leads of `s` the comparator cannot tell apart from a lead of tier
      `t` created at `c`, in their order in `s`. */
  function KeyClass(s: seq<Lead>, t: int, c: Timestamp): seq<Lead> {
    Filter(s, SameKey(t, c))
  }

  /** Whether a lead has tier `t` and creation time `c`. */
  function SameKey(t: int, c: Timestamp): Lead -> bool {
    (l: Lead) => Tier(l) == t && l.createdAt == c
  }

  /** Equal comparator keys: the same tier and the same creation time. */
  lemma CompareProperties(a: Lead, b: Lead, c: Lead)
    ensures Compare(a, b) <= 0 || Compare(b, a) <= 0
    ensures Compare(a, b) <= 0 && Compare(b, a) <= 0 <==> Tier(a) == Tier(b) && a.createdAt == b.createdAt
    ensures Compare(a, b) <= 0 && Compare(b, c) <= 0 ==> Compare(a, c) <= 0
  {
  }

  /** Puts `x` before the first element it does not follow, so it stays in
      front of the elements it ties with. */
  function Insert(x: Lead, s: seq<Lead>): seq<Lead> {
    if s == [] then [x]
    else if Compare(x, s[0]) <= 0 then [x] + s
    else [s[0]] + Insert(x, s[1..])
  }

  lemma {:induction false} InsertPermutes(x: Lead, s: seq<Lead>)
    ensures multiset(Insert(x, s)) == multiset(s) + multiset{x}
  {
    if s != [] && Compare(x, s[0]) > 0 {
      InsertPermutes(x, s[1..]);
      assert s == [s[0]] + s[1..];
    }
  }

  lemma SortedTail(s: seq<Lead>)
    requires Sorted(s) && s != []
    ensures Sorted(s[1..])
  {
    forall i, j | 0 <= i < j < |s[1..]|
      ensures Compare(s[1..][i], s[1..][j]) <= 0
    {
      assert s[1..][i] == s[i + 1] && s[1..][j] == s[j + 1];
    }
  }

  lemma SortedCons(x: Lead, s: seq<Lead>)
    requires Sorted(s)
    requires forall y :: y in s ==> Compare(x, y) <= 0
    ensures Sorted([x] + s)
  {
    var r := [x] + s;
    forall i, j | 0 <= i < j < |r|
      ensures Compare(r[i], r[j]) <= 0
    {
      assert r[j] == s[j - 1];
      if i > 0 {
        assert r[i] == s[i - 1];
      }
    }
  }

  lemma SortedHeadFirst(s: seq<Lead>, y: Lead)
    requires Sorted(s) && y in s
    ensures Compare(s[0], y) <= 0
  {
    var k :| 0 <= k < |s| && s[k] == y;
    if k == 0 {
      assert Compare(y, y) == 0;
    }
  }

  lemma {:induction false} InsertSorted(x: Lead, s: seq<Lead>)
    requires Sorted(s)
    ensures Sorted(Insert(x, s))
  {
    if s == [] {
    } else if Compare(x, s[0]) <= 0 {
      forall y | y in s
        ensures Compare(x, y) <= 0
      {
        SortedHeadFirst(s, y);
        CompareProperties(x, s[0], y);
      }
      SortedCons(x, s);
    } else {
      var rest := Insert(x, s[1..]);
      SortedTail(s);
      InsertSorted(x, s[1..]);
      InsertPermutes(x, s[1..]);
      forall y | y in rest
        ensures Compare(s[0], y) <= 0
      {
        assert y in multiset(rest);
        if y == x {
          CompareProperties(x, s[0], x);
        } else {
          assert y in multiset(s[1..]);
          assert y in s;
          SortedHeadFirst(s, y);
        }
      }
      SortedCons(s[0], rest);
    }
  }

  /** Inserting `x` into a sorted list puts it first among its ties. */
  lemma {:induction false} InsertKeyClass(x: Lead, s: seq<Lead>, t: int, c: Timestamp)
    requires Sorted(s)
    ensures KeyClass(Insert(x, s), t, c)
            == (if Tier(x) == t && x.createdAt == c then [x] else []) + KeyClass(s, t, c)
  {
    var key := SameKey(t, c);
    if s == [] {
    } else if Compare(x, s[0]) <= 0 {
      assert ([x] + s)[1..] == s;
    } else {
      var rest := Insert(x, s[1..]);
      SortedTail(s);
      InsertKeyClass(x, s[1..], t, c);
      assert ([s[0]] + rest)[1..] == rest;
      assert !(key(x) && key(s[0]));
    }
  }

  /** One insertion step of SortLeads: inserting the head into the sorted
      tail keeps the three promises of the sort. */
  lemma SortStep(s: seq<Lead>, rest: seq<Lead>)
    requires s != [] && Sorted(rest) && multiset(rest) == multiset(s[1..])
    requires forall t, c :: KeyClass(rest, t, c) == KeyClass(s[1..], t, c)
    ensures multiset(Insert(s[0], rest)) == multiset(s)
    ensures Sorted(Insert(s[0], rest))
    ensures forall t, c :: KeyClass(Insert(s[0], rest), t, c) == KeyClass(s, t, c)
  {
    InsertPermutes(s[0], rest);
    InsertSorted(s[0], rest);
    assert s == [s[0]] + s[1..];
    forall t, c
      ensures KeyClass(Insert(s[0], rest), t, c) == KeyClass(s, t, c)
    {
      InsertKeyClass(s[0], rest, t, c);
    }
  }

  /** The board order: a permutation of the input that is sorted by the
      comparator and keeps tied leads in their input order. */
  function SortLeads(s: seq<Lead>): (r: seq<Lead>)
    ensures multiset(r) == multiset(s)
    ensures Sorted(r)
    ensures forall t, c :: KeyClass(r, t, c) == KeyClass(s, t, c)
  {
    if s == [] then []
    else
      var rest := SortLeads(s[1..]);
      SortStep(s, rest);
      Insert(s[0], rest)
  }

  /** Two lists sorted by the comparator with the same ties in the same order
      are equal: the stable sorted order is unique, so any stable sort with
      this comparator yields SortLeads. */
  lemma {:induction false} StableSortUnique(a: seq<Lead>, b: seq<Lead>)
    requires Sorted(a) && Sorted(b)
    requires forall t, c :: KeyClass(a, t, c) == KeyClass(b, t, c)
    ensures a == b
  {
    if a != [] && b != [] {
      SameHeads(a, b);
      SortedTail(a);
      SortedTail(b);
      forall t, c
        ensures KeyClass(a[1..], t, c) == KeyClass(b[1..], t, c)
      {
        KeyClassTail(a, b, t, c);
      }
      StableSortUnique(a[1..], b[1..]);
    } else if a != [] {
      MemberViaClass(a, b, a[0]);
    } else if b != [] {
      MemberViaClass(a, b, b[0]);
    }
  }

  /** Lists with the same ties have the same members. */
  lemma MemberViaClass(a: seq<Lead>, b: seq<Lead>, x: Lead)
    requires forall t, c :: KeyClass(a, t, c) == KeyClass(b, t, c)
    ensures x in a <==> x in b
  {
    var k := KeyClass(a, Tier(x), x.createdAt);
    assert x in a <==> x in k;
    assert k == KeyClass(b, Tier(x), x.createdAt);
  }

  /** A list's first lead heads its own tie class. */
  lemma HeadOfClass(a: seq<Lead>, t: int, c: Timestamp)
    requires a != [] && Tier(a[0]) == t && a[0].createdAt == c
    ensures KeyClass(a, t, c) == [a[0]] + KeyClass(a[1..], t, c)
  {
  }

  /** Sorted lists with the same ties start with the same lead. */
  lemma SameHeads(a: seq<Lead>, b: seq<Lead>)
    requires Sorted(a) && Sorted(b) && a != [] && b != []
    requires forall t, c :: KeyClass(a, t, c) == KeyClass(b, t, c)
    ensures a[0] == b[0]
  {
    var x, y := a[0], b[0];
    MemberViaClass(a, b, x);
    MemberViaClass(a, b, y);
    SortedHeadFirst(b, x);
    SortedHeadFirst(a, y);
    CompareProperties(x, y, x);
    HeadOfClass(a, Tier(x), x.createdAt);
    HeadOfClass(b, Tier(x), x.createdAt);
    assert KeyClass(a, Tier(x), x.createdAt)[0] == x;
    assert KeyClass(b, Tier(x), x.createdAt)[0] == y;
  }

  /** Removing equal heads leaves tails with the same ties. */
  lemma KeyClassTail(a: seq<Lead>, b: seq<Lead>, t: int, c: Timestamp)
    requires a != [] && b != [] && a[0] == b[0]
    requires KeyClass(a, t, c) == KeyClass(b, t, c)
    ensures KeyClass(a[1..], t, c) == KeyClass(b[1..], t, c)
  {
    if Tier(a[0]) == t && a[0].createdAt == c {
      HeadOfClass(a, t, c);
      HeadOfClass(b, t, c);
      assert KeyClass(a, t, c)[1..] == KeyClass(a[1..], t, c);
      assert KeyClass(b, t, c)[1..] == KeyClass(b[1..], t, c);
    }
  }

  /** Whatever stable sort runs with the board's comparator, its result is
      the board order. */
  lemma AnyStableSortAgrees(s: seq<Lead>, r: seq<Lead>)
    requires Sorted(r)
    requires forall t, c :: KeyClass(r, t, c) == KeyClass(s, t, c)
    ensures r == SortLeads(s)
  {
    StableSortUnique(r, SortLeads(s));
  }

  /** The list the board shows: the search result in board
      order. Every High lead precedes every other lead, and within the High
      tier and within the Medium-or-Low tier newer leads come first. */
  function Projection(leads: seq<Lead>, query: string): (r: seq<Lead>)
    ensures multiset(r) == multiset(FilterLeads(leads, query))
    ensures forall i, j :: 0 <= i < j < |r| && r[j].priority == High ==> r[i].priority == High
    ensures forall i, j :: 0 <= i < j < |r| && Tier(r[i]) == Tier(r[j]) ==> r[i].createdAt >= r[j].createdAt
    ensures forall t, c :: KeyClass(r, t, c) == KeyClass(FilterLeads(leads, query), t, c)
  {
    SortLeads(FilterLeads(leads, query))
  }

  /** Whether a lead is at stage `s`. */
  function HasStatus(s: LeadStatus): Lead -> bool {
    (l: Lead) => l.status == s
  }

  /** One board column: the leads of the projection with that status, each
      as often as in the projection, in projection order (ColumnConcat). */
  function Column(p: seq<Lead>, s: LeadStatus): (r: seq<Lead>)
    ensures forall l :: l in r <==> l in p && l.status == s
    ensures forall l :: multiset(r)[l] == if l.status == s then multiset(p)[l] else 0
  {
    Filter(p, HasStatus(s))
  }

  /** A column of a concatenation is the concatenation of the columns. */
  lemma ColumnConcat(a: seq<Lead>, b: seq<Lead>, s: LeadStatus)
    ensures Column(a + b, s) == Column(a, s) + Column(b, s)
  {
    FilterConcat(a, b, HasStatus(s));
  }

  /** Each lead of the projection is in exactly one of the five columns. */
  lemma ExactlyOneColumn(p: seq<Lead>, l: Lead)
    requires l in p
    ensures forall i :: 0 <= i < |Statuses| ==> (l in Column(p, Statuses[i]) <==> Statuses[i] == l.status)
    ensures exists i :: 0 <= i < |Statuses| && l in Column(p, Statuses[i])
  {
    StatusesEnumerate(l.status);
  }

  /** The five columns together hold exactly as many leads as the projection. */
  lemma {:induction false} ColumnSizes(p: seq<Lead>)
    ensures |Column(p, LeadStatus.Lead)| + |Column(p, Interviewing)| + |Column(p, Formation)|
            + |Column(p, Recruiter)| + |Column(p, Rejected)| == |p|
  {
    if p != [] {
      ColumnSizes(p[1..]);
      ColumnCons(p, LeadStatus.Lead);
      ColumnCons(p, Interviewing);
      ColumnCons(p, Formation);
      ColumnCons(p, Recruiter);
      ColumnCons(p, Rejected);
    }
  }

  /** The first lead adds one to its own column and nothing to the others. */
  lemma ColumnCons(p: seq<Lead>, s: LeadStatus)
    requires p != []
    ensures |Column(p, s)| == (if p[0].status == s then 1 else 0) + |Column(p[1..], s)|
  {
  }

  /** A filter of a sorted list is sorted: every column keeps the board order. */
  lemma {:induction false} FilterSorted(p: seq<Lead>, keep: Lead -> bool)
    requires Sorted(p)
    ensures Sorted(Filter(p, keep))
  {
    if p != [] {
      SortedTail(p);
      FilterSorted(p[1..], keep);
      if keep(p[0]) {
        var rest := Filter(p[1..], keep);
        forall y | y in rest
          ensures Compare(p[0], y) <= 0
        {
          SortedHeadFirst(p, y);
        }
        SortedCons(p[0], rest);
      }
    }
  }

  /** The columns of the projection are sorted in board order. */
  lemma ColumnsSorted(leads: seq<Lead>, query: string, s: LeadStatus)
    ensures Sorted(Column(Projection(leads, query), s))
  {
    FilterSorted(Projection(leads, query), HasStatus(s));
  }

  /** A needle with a character the haystack lacks never occurs in it. */
  lemma AbsentCharNoMatch(hay: string, needle: string, ch: char)
    requires ch in needle && ch !in hay
    ensures !Contains(hay, needle)
  {
  }

  /** A string without any `u` cannot contain "dub" once lower-cased. */
  lemma NoDub(s: string)
    requires 'u' !in s && 'U' !in s
    ensures !Contains(Lower(s), "dub")
  {
    assert 'u' !in Lower(s);
    AbsentCharNoMatch(Lower(s), "dub", 'u');
  }

  /** When the query matches the first of two leads and not the second, the
      search keeps the first alone. */
  lemma KeepFirstOnly(a: Lead, b: Lead, q: string)
    requires q != "" && Matches(a, Lower(q)) && !Matches(b, Lower(q))
    ensures FilterLeads([a, b], q) == [a]
  {
    var r := FilterLeads([a, b], q);
    assert multiset([a, b]) == multiset{a, b};
    assert multiset(r) == multiset{a};
    assert |r| == 1;
    assert r[0] in r;
  }

  lemma DuboisMatches(a: Lead)
    requires a.fullName == "Alexandre Dubois"
    ensures Matches(a, Lower("dub"))
  {
    var n := Lower(a.fullName);
    assert n[10] == 'd' && n[11] == 'u' && n[12] == 'b';
    assert n[10..13] == "dub";
    assert OccursAt(n, "dub", 10);
    assert Lower("dub") == "dub";
  }

  lemma NoDubLiteral(s: string)
    requires s in ["Sarah Wagner", "s.wagner@example.de", "Promoter / Brand Ambassador"]
    ensures !Contains(Lower(s), "dub")
  {
    NoDub(s);
  }

  lemma WagnerMisses(b: Lead)
    requires b.fullName == "Sarah Wagner" && b.email == "s.wagner@example.de"
    requires b.postAppliedFor == "Promoter / Brand Ambassador"
    ensures !Matches(b, Lower("dub"))
  {
    NoDubLiteral("Sarah Wagner");
    NoDubLiteral("s.wagner@example.de");
    NoDubLiteral("Promoter / Brand Ambassador");
    assert Lower("dub") == "dub";
  }

  /** Searching "dub" over the two sample leads keeps only Alexandre Dubois:
      the upper-case D of the name matches the lower-case query. */
  lemma SearchDub(a: Lead, b: Lead)
    requires a.fullName == "Alexandre Dubois"
    requires b.fullName == "Sarah Wagner" && b.email == "s.wagner@example.de"
    requires b.postAppliedFor == "Promoter / Brand Ambassador"
    ensures FilterLeads([a, b], "dub") == [a]
  {
    DuboisMatches(a);
    WagnerMisses(b);
    KeepFirstOnly(a, b, "dub");
  }

  /** Tied leads reach the board in the order they were loaded: the ties of
      the projection are the search over the ties of the loaded list. */
  lemma ProjectionTiesInLoadOrder(leads: seq<Lead>, query: string, t: int, c: Timestamp)
    ensures KeyClass(Projection(leads, query), t, c) == FilterLeads(KeyClass(leads, t, c), query)
  {
    if query != "" {
      var m := MatchesQuery(Lower(query));
      var both := (l: Lead) => m(l) && SameKey(t, c)(l);
      FilterTwice(leads, m, SameKey(t, c), both);
      FilterTwice(leads, SameKey(t, c), m, both);
    }
  }
}

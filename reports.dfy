/**
 * The reports screen: the current month's totals (all, personal, bulk), the
 * all-time count per mass type, and the ten most recent masses.
 */
module Reports {
  import opened Seqs
  import opened Domain

  function InMonth(month: int, year: int): Mass -> bool {
    (m: Mass) => m.date.month == month && m.date.year == year
  }

  function HasType(t: MassType): Mass -> bool {
    (m: Mass) => m.massType == t
  }

  const IsBulkMass: Mass -> bool := (m: Mass) => m.massType.IsBulk()

  /** The user's masses dated in the given month and year. */
  function CurrentMonthMasses(userMasses: seq<Mass>, month: int, year: int): (r: seq<Mass>)
    ensures forall m :: m in r ==> m in userMasses && m.date.month == month && m.date.year == year
    ensures forall m :: m in userMasses && m.date.month == month && m.date.year == year ==> m in r
    ensures forall m :: m in userMasses ==>
      multiset(r)[m] == if m.date.month == month && m.date.year == year then multiset(userMasses)[m] else 0
  {
    FilterCounts(userMasses, InMonth(month, year));
    Filter(userMasses, InMonth(month, year))
  }

  /** How many of `ms` have type `t`. */
  function TypeCount(ms: seq<Mass>, t: MassType): nat {
    |Filter(ms, HasType(t))|
  }

  /** "Personal Masses" of the month summary. */
  function PersonalCount(monthMasses: seq<Mass>): (n: nat)
    ensures n <= |monthMasses|
    ensures n == 0 <==> forall m :: m in monthMasses ==> m.massType != Personal
    ensures n == |monthMasses| <==> forall m :: m in monthMasses ==> m.massType == Personal
  {
    FilterEmpty(monthMasses, HasType(Personal));
    FilterKeepsAll(monthMasses, HasType(Personal));
    TypeCount(monthMasses, Personal)
  }

  /** "Bulk Masses" of the month summary: types with the `bulk_` prefix. */
  function BulkCount(monthMasses: seq<Mass>): (n: nat)
    ensures n <= |monthMasses|
    ensures n == 0 <==> forall m :: m in monthMasses ==> m.massType != BulkProvince && m.massType != BulkGeneralate
    ensures n == |monthMasses| <==> forall m :: m in monthMasses ==> m.massType == BulkProvince || m.massType == BulkGeneralate
  {
    BulkMassesAreBulkTypes(monthMasses);
    FilterEmpty(monthMasses, IsBulkMass);
    FilterKeepsAll(monthMasses, IsBulkMass);
    |Filter(monthMasses, IsBulkMass)|
  }

  /** `BulkTypes` for every mass of a list, in the form `BulkCount`'s proof uses. */
  lemma BulkMassesAreBulkTypes(ms: seq<Mass>)
    ensures forall m :: m in ms ==> (IsBulkMass(m) <==> m.massType == BulkProvince || m.massType == BulkGeneralate)
  {
    forall m | m in ms ensures IsBulkMass(m) <==> m.massType == BulkProvince || m.massType == BulkGeneralate {
      BulkTypes(m.massType);
    }
  }

  /** The month's personal and bulk counts together never exceed its total, and both count only this user's masses of this month. */
  lemma MonthSummaryBounded(masses: seq<Mass>, priestId: string, month: int, year: int)
    ensures var cm := CurrentMonthMasses(UserMasses(masses, priestId), month, year);
      && PersonalCount(cm) + BulkCount(cm) <= |cm|
      && forall m :: m in Filter(cm, HasType(Personal)) + Filter(cm, IsBulkMass) ==>
           m in masses && m.priestId == priestId && m.date.month == month && m.date.year == year
  {
    var cm := CurrentMonthMasses(UserMasses(masses, priestId), month, year);
    forall m | m in cm ensures !(HasType(Personal)(m) && IsBulkMass(m)) {
      BulkTypes(m.massType);
    }
    FilterDisjoint(cm, HasType(Personal), IsBulkMass);
  }

  /** The count recorded for a type, 0 when the accumulator has no entry for it. */
  function Get(acc: map<MassType, nat>, t: MassType): nat {
    if t in acc then acc[t] else 0
  }

  /** `acc` is the all-time summary of `ms`: a key for each type that occurs, holding that type's count. */
  ghost predicate Summarises(acc: map<MassType, nat>, ms: seq<Mass>) {
    forall t :: Get(acc, t) == TypeCount(ms, t) && (t in acc <==> TypeCount(ms, t) > 0)
  }

  lemma TypeCountSnoc(s: seq<Mass>, x: Mass, t: MassType)
    ensures TypeCount(s + [x], t) == TypeCount(s, t) + (if t == x.massType then 1 else 0)
  {
    FilterSnoc(s, x, HasType(t));
  }

  /** The all-time summary, built as the source does: a loop that bumps an accumulator entry per mass. */
  method MassesByType(userMasses: seq<Mass>) returns (acc: map<MassType, nat>)
    ensures Summarises(acc, userMasses)
    ensures forall t :: t in acc ==> acc[t] > 0
    ensures Total(acc) == |userMasses|
  {
    acc := map[];
    var i := 0;
    while i < |userMasses|
      invariant 0 <= i <= |userMasses|
      invariant Summarises(acc, userMasses[..i])
    {
      var x := userMasses[i];
      assert userMasses[..i + 1] == userMasses[..i] + [x];
      forall t ensures TypeCount(userMasses[..i + 1], t) == TypeCount(userMasses[..i], t) + (if t == x.massType then 1 else 0) {
        TypeCountSnoc(userMasses[..i], x, t);
      }
      acc := acc[x.massType := Get(acc, x.massType) + 1];
      i := i + 1;
    }
    assert userMasses[..i] == userMasses;
    SummaryTotal(acc, userMasses);
  }

  /** In a summary, a type is a key exactly when some mass has it, and its entry is then the number of masses of that type. */
  lemma SummaryEntries(acc: map<MassType, nat>, ms: seq<Mass>, t: MassType)
    requires Summarises(acc, ms)
    ensures t in acc <==> exists m :: m in ms && m.massType == t
    ensures t in acc ==> acc[t] == |Filter(ms, HasType(t))| > 0
  {
    if exists m :: m in ms && m.massType == t {
      var m :| m in ms && m.massType == t;
      assert m in Filter(ms, HasType(t));
    } else {
      FilterNone(ms, HasType(t));
    }
  }

  /** A list of masses has exactly one summary. */
  lemma SummaryUnique(a: map<MassType, nat>, b: map<MassType, nat>, ms: seq<Mass>)
    requires Summarises(a, ms) && Summarises(b, ms)
    ensures a == b
  {
  }

  /** The sum of all entries of a summary (there are five mass types). */
  function Total(acc: map<MassType, nat>): nat {
    Get(acc, Personal) + Get(acc, Deceased) + Get(acc, BulkProvince) + Get(acc, BulkGeneralate) + Get(acc, Special)
  }

  /** The five type counts add up to the number of masses. */
  lemma {:induction false} TypeCountsSum(ms: seq<Mass>)
    ensures TypeCount(ms, Personal) + TypeCount(ms, Deceased) + TypeCount(ms, BulkProvince)
          + TypeCount(ms, BulkGeneralate) + TypeCount(ms, Special) == |ms|
  {
    if ms != [] {
      TypeCountsSum(ms[1..]);
    }
  }

  /** A summary's entries add up to the number of masses it summarises. */
  lemma SummaryTotal(acc: map<MassType, nat>, ms: seq<Mass>)
    requires Summarises(acc, ms)
    ensures Total(acc) == |ms|
  {
    assert Get(acc, Personal) == TypeCount(ms, Personal);
    assert Get(acc, Deceased) == TypeCount(ms, Deceased);
    assert Get(acc, BulkProvince) == TypeCount(ms, BulkProvince);
    assert Get(acc, BulkGeneralate) == TypeCount(ms, BulkGeneralate);
    assert Get(acc, Special) == TypeCount(ms, Special);
    TypeCountsSum(ms);
  }

  /** Newest first: no mass is dated after one that precedes it. */
  ghost predicate NewestFirst(s: seq<Mass>) {
    forall i, j :: 0 <= i < j < |s| ==> OnOrBefore(s[j].date, s[i].date)
  }

  /** Exchange two masses of the array. */
  method Swap(a: array<Mass>, i: nat, j: nat)
    requires i < a.Length && j < a.Length
    modifies a
    ensures a[i] == old(a[j]) && a[j] == old(a[i])
    ensures forall k :: 0 <= k < a.Length && k != i && k != j ==> a[k] == old(a[k])
    ensures multiset(a[..]) == old(multiset(a[..]))
  {
    a[i], a[j] := a[j], a[i];
  }

  /** One insertion step: `a[i]` moves down past every mass older than it, leaving `a[..i + 1]` newest first. */
  method InsertNewest(a: array<Mass>, i: nat)
    requires i < a.Length
    requires forall k, l :: 0 <= k < l < i ==> OnOrBefore(a[l].date, a[k].date)
    modifies a
    ensures forall k, l :: 0 <= k < l <= i ==> OnOrBefore(a[l].date, a[k].date)
    ensures multiset(a[..]) == old(multiset(a[..]))
    ensures forall k :: i < k < a.Length ==> a[k] == old(a[k])
  {
    var j := i;
    while 0 < j && !OnOrBefore(a[j].date, a[j - 1].date)
      invariant 0 <= j <= i
      invariant forall k, l :: 0 <= k < l < j ==> OnOrBefore(a[l].date, a[k].date)
      invariant forall k, l :: j <= k < l <= i ==> OnOrBefore(a[l].date, a[k].date)
      invariant forall k, l :: 0 <= k < j < l <= i ==> OnOrBefore(a[l].date, a[k].date)
      invariant multiset(a[..]) == old(multiset(a[..]))
      invariant forall k :: i < k < a.Length ==> a[k] == old(a[k])
    {
      Swap(a, j - 1, j);
      j := j - 1;
    }
  }

  /** Sorts the masses in place, latest date first. */
  method SortNewestFirst(a: array<Mass>)
    modifies a
    ensures NewestFirst(a[..])
    ensures multiset(a[..]) == old(multiset(a[..]))
  {
    var i := 0;
    while i < a.Length
      invariant 0 <= i <= a.Length
      invariant forall k, l :: 0 <= k < l < i ==> OnOrBefore(a[l].date, a[k].date)
      invariant multiset(a[..]) == old(multiset(a[..]))
    {
      InsertNewest(a, i);
      i := i + 1;
    }
  }

  lemma MultisetSplit(s: seq<Mass>, n: nat)
    requires n <= |s|
    ensures multiset(s) - multiset(s[..n]) == multiset(s[n..])
    ensures multiset(s[..n]) <= multiset(s)
  {
    assert s == s[..n] + s[n..];
  }

  /** A prefix of a newest-first sequence is newest first, and nothing it leaves out is newer than anything it keeps. */
  lemma NewestPrefix(sorted: seq<Mass>, n: nat)
    requires NewestFirst(sorted) && n <= |sorted|
    ensures NewestFirst(sorted[..n])
    ensures forall m, x :: m in multiset(sorted) - multiset(sorted[..n]) && x in sorted[..n] ==> OnOrBefore(m.date, x.date)
  {
    MultisetSplit(sorted, n);
    forall m, x | m in sorted[n..] && x in sorted[..n]
      ensures OnOrBefore(m.date, x.date)
    {
      var l :| 0 <= l < |sorted| - n && sorted[n..][l] == m;
      var k :| 0 <= k < n && sorted[..n][k] == x;
      assert sorted[n + l] == m && sorted[k] == x;
    }
  }

  /** How many masses the recent list shows. */
  const RecentLimit: nat := 10

  /**
   * The "Recent Mass Celebrations" table: the user's masses sorted newest
   * first, cut to the first ten.
   */
  method RecentMasses(masses: seq<Mass>, priestId: string) returns (recent: seq<Mass>)
    ensures var n := |UserMasses(masses, priestId)|; |recent| == if n < RecentLimit then n else RecentLimit
    ensures forall m :: m in recent ==> m in masses && m.priestId == priestId
    ensures multiset(recent) <= multiset(UserMasses(masses, priestId))
    ensures NewestFirst(recent)
    ensures forall m, x :: m in multiset(UserMasses(masses, priestId)) - multiset(recent) && x in recent ==>
      OnOrBefore(m.date, x.date)
  {
    var userMasses := UserMasses(masses, priestId);
    var a := new Mass[|userMasses|](i requires 0 <= i < |userMasses| => userMasses[i]);
    assert a[..] == userMasses;
    SortNewestFirst(a);
    var sorted := a[..];
    var n := if a.Length < RecentLimit then a.Length else RecentLimit;
    recent := sorted[..n];
    NewestPrefix(sorted, n);
    MultisetSplit(sorted, n);
    forall m | m in recent ensures m in masses && m.priestId == priestId {
      assert m in multiset(userMasses);
    }
  }
}

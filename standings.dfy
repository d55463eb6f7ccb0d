/**
 * `buildStandings` of src/pages/StandingsPage.tsx (the copy in
 * src/pages/KnockoutPage.tsx is the same text and is modelled by the same
 * members). Final matches are folded into per-team counters, each row gets
 * its point difference, win ratio and composite ranking key, and the rows
 * are sorted by composite, highest first.
 *
 * The JavaScript Map keyed by team id is a sequence of tallies in the order
 * ids were first inserted (the iteration order of a Map); the row objects it
 * holds are updated in place, which here is an update of the sequence at the
 * row's position.
 */
module Standings {
  import opened Common
  import opened Firestore

  datatype Team = Team(id: Id, name: string, code: string)

  /** A row while matches are folded in: the object stored in the Map. */
  datatype Tally = Tally(id: Id, name: string, code: string, pf: int, pa: int, wins: nat, losses: nat)

  /** A finished standings row: the tally spread out plus its derived fields. */
  datatype Row = Row(
    id: Id, name: string, code: string,
    pf: int, pa: int, wins: nat, losses: nat,
    diff: int, winPct: real, composite: int)

  /** The four counters of a row, as one value that can be added up. */
  datatype Counters = Counters(pf: int, pa: int, wins: int, losses: int)

  const NoCounters := Counters(0, 0, 0, 0)

  function Add(a: Counters, b: Counters): Counters
  {
    Counters(a.pf + b.pf, a.pa + b.pa, a.wins + b.wins, a.losses + b.losses)
  }

  function CountersOf(t: Tally): Counters
  {
    Counters(t.pf, t.pa, t.wins, t.losses)
  }

  function RowCounters(r: Row): Counters
  {
    Counters(r.pf, r.pa, r.wins, r.losses)
  }

  // ---------------------------------------------------------------------
  // The Map of tallies

  function ZeroTally(t: Team): (z: Tally)
  {
    Tally(t.id, t.name, t.code, 0, 0, 0, 0)
  }

  /** `map.get(id)`: the position of the first tally with that id, if any. */
  function Find(ts: seq<Tally>, id: Option<Id>): (r: Option<nat>)
    ensures r.Some? ==> r.value < |ts| && id == Some(ts[r.value].id)
    ensures r.Some? ==> forall k :: 0 <= k < r.value ==> Some(ts[k].id) != id
    ensures r.None? ==> forall k :: 0 <= k < |ts| ==> Some(ts[k].id) != id
  {
    if ts == [] then None
    else if Some(ts[0].id) == id then Some(0)
    else match Find(ts[1..], id)
      case Some(k) => Some(k + 1)
      case None => None
  }

  /** `map.set(t.id, zero row)`: overwrite in place if the id is present, else append. */
  function Register(ts: seq<Tally>, t: Team): (r: seq<Tally>)
  {
    match Find(ts, Some(t.id))
    case Some(k) => ts[k := ZeroTally(t)]
    case None => ts + [ZeroTally(t)]
  }

  ghost predicate Distinct(ts: seq<Tally>)
  {
    forall i, j :: 0 <= i < j < |ts| ==> ts[i].id != ts[j].id
  }

  ghost function IdSet(ts: seq<Tally>): set<Id>
  {
    set k | 0 <= k < |ts| :: ts[k].id
  }

  ghost function TeamIds(teams: seq<Team>): set<Id>
  {
    set k | 0 <= k < |teams| :: teams[k].id
  }

  /** `teams.forEach(t => map.set(t.id, ...))` */
  function InitTallies(teams: seq<Team>): seq<Tally>
  {
    if teams == [] then [] else Register(InitTallies(teams[..|teams| - 1]), teams[|teams| - 1])
  }

  // ---------------------------------------------------------------------
  // Folding one match in

  /** `x.pf += own; x.pa += opp` and the win or loss of the side scoring `own`. */
  function Credit(t: Tally, own: int, opp: int): Tally
  {
    t.(pf := t.pf + own, pa := t.pa + opp,
       wins := t.wins + (if own > opp then 1 else 0),
       losses := t.losses + (if opp > own then 1 else 0))
  }

  /**
   * One iteration of the forEach over final matches: both teams must be in
   * the Map, a missing score counts as 0. When both ids name the same team,
   * `a` and `b` are the same object and it is credited twice.
   */
  function Step(ts: seq<Tally>, m: MatchDoc): seq<Tally>
  {
    if !IsFinal(m) then ts
    else match (Find(ts, m.team1Id), Find(ts, m.team2Id))
      case (Some(i), Some(j)) =>
        var s1, s2 := OrElse(m.score1, 0), OrElse(m.score2, 0);
        CreditBoth(ts, i, j, s1, s2)
      case _ => ts
  }

  /** `a` at position `i` scores `s1` to `s2`, then `b` at position `j` scores `s2` to `s1`. */
  function CreditBoth(ts: seq<Tally>, i: nat, j: nat, s1: int, s2: int): seq<Tally>
    requires i < |ts| && j < |ts|
  {
    var ts' := ts[i := Credit(ts[i], s1, s2)];
    ts'[j := Credit(ts'[j], s2, s1)]
  }

  function Fold(ts: seq<Tally>, ms: seq<MatchDoc>): seq<Tally>
  {
    if ms == [] then ts else Step(Fold(ts, ms[..|ms| - 1]), ms[|ms| - 1])
  }

  // ---------------------------------------------------------------------
  // Derived fields and the sort

  const WinWeight: int := 100000
  const DiffWeight: int := 100
  const DiffOffset: int := 1000

  /** `wins*100000 + ((pf - pa) + 1000)*100 + pf` */
  function Composite(wins: int, pf: int, pa: int): int
  {
    wins * WinWeight + ((pf - pa) + DiffOffset) * DiffWeight + pf
  }

  /** `(wins + losses) ? wins / (wins + losses) : 0`, as an exact ratio. */
  function WinPct(wins: nat, losses: nat): (p: real)
    ensures 0.0 <= p <= 1.0
    ensures wins + losses == 0 ==> p == 0.0
    ensures wins + losses > 0 && losses == 0 ==> p == 1.0
  {
    if wins + losses != 0 then wins as real / (wins + losses) as real else 0.0
  }

  function Derive(t: Tally): Row
  {
    Row(t.id, t.name, t.code, t.pf, t.pa, t.wins, t.losses,
        t.pf - t.pa, WinPct(t.wins, t.losses), Composite(t.wins, t.pf, t.pa))
  }

  function DeriveAll(ts: seq<Tally>): (rs: seq<Row>)
    ensures |rs| == |ts|
    ensures forall k :: 0 <= k < |ts| ==> rs[k] == Derive(ts[k])
  {
    seq(|ts|, k requires 0 <= k < |ts| => Derive(ts[k]))
  }

  ghost predicate Sorted(rs: seq<Row>)
  {
    forall i, j :: 0 <= i < j < |rs| ==> rs[i].composite >= rs[j].composite
  }

  /**
   * Insert `x` before the first row whose composite is not larger than its
   * own; since `Rank` inserts each row into the ranked rows after it, rows
   * with equal composites keep their input order.
   */
  function Insert(x: Row, rs: seq<Row>): seq<Row>
  {
    if rs == [] || x.composite >= rs[0].composite then [x] + rs
    else [rs[0]] + Insert(x, rs[1..])
  }

  /** `.sort((x, y) => y.composite - x.composite)`, a stable sort, highest composite first. */
  function Rank(rs: seq<Row>): seq<Row>
  {
    if rs == [] then [] else Insert(rs[0], Rank(rs[1..]))
  }

  /** The function `buildStandings` computes. */
  function StandingsOf(teams: seq<Team>, ms: seq<MatchDoc>): seq<Row>
  {
    Rank(DeriveAll(Fold(InitTallies(teams), ms)))
  }

  // ---------------------------------------------------------------------
  // buildStandings itself

  method BuildStandings(teams: seq<Team>, matches: seq<MatchDoc>) returns (rows: seq<Row>)
    ensures rows == StandingsOf(teams, matches)
    ensures Sorted(rows)
    ensures |rows| == |TeamIds(teams)|
  {
    var tallies: seq<Tally> := [];
    for k := 0 to |teams|
      invariant tallies == InitTallies(teams[..k])
    {
      tallies := Register(tallies, teams[k]);
      assert teams[..k + 1][..k] == teams[..k];
    }
    assert teams[..|teams|] == teams;
    ghost var init := tallies;
    for k := 0 to |matches|
      invariant tallies == Fold(init, matches[..k])
    {
      var m := matches[k];
      assert matches[..k + 1][..k] == matches[..k];
      if !IsFinal(m) {
        continue;
      }
      var a := Find(tallies, m.team1Id);
      var b := Find(tallies, m.team2Id);
      if a.None? || b.None? {
        continue;
      }
      var s1, s2 := OrElse(m.score1, 0), OrElse(m.score2, 0);
      tallies := tallies[a.value := Credit(tallies[a.value], s1, s2)];
      tallies := tallies[b.value := Credit(tallies[b.value], s2, s1)];
    }
    assert matches[..|matches|] == matches;
    rows := Rank(DeriveAll(tallies));
    StandingsSorted(teams, matches);
    StandingsOneRowPerTeam(teams, matches);
  }

  // ---------------------------------------------------------------------
  // A reference definition: what one match contributes to one team

  /** The counters a side gains from one game scored `own` to `opp`. */
  function Share(own: int, opp: int): Counters
  {
    Counters(own, opp, if own > opp then 1 else 0, if opp > own then 1 else 0)
  }

  /** A match the fold takes into account: final, and both teams known. */
  ghost predicate Counted(m: MatchDoc, known: set<Id>)
  {
    IsFinal(m) && m.team1Id.Some? && m.team2Id.Some?
    && m.team1Id.value in known && m.team2Id.value in known
  }

  /** What match `m` adds to the row of team `id`, from each side the team plays. */
  ghost function Gain(m: MatchDoc, known: set<Id>, id: Id): Counters
  {
    if !Counted(m, known) then NoCounters
    else
      var s1, s2 := OrElse(m.score1, 0), OrElse(m.score2, 0);
      SidesGain(m.team1Id == Some(id), m.team2Id == Some(id), s1, s2)
  }

  /** The sum of `Gain` over a list of matches. */
  ghost function Ref(ms: seq<MatchDoc>, known: set<Id>, id: Id): Counters
  {
    if ms == [] then NoCounters else Add(Ref(ms[..|ms| - 1], known, id), Gain(ms[|ms| - 1], known, id))
  }

  // ---------------------------------------------------------------------
  // Lemmas about the Map of tallies

  lemma FindIn(ts: seq<Tally>, id: Option<Id>)
    ensures Find(ts, id).Some? <==> id.Some? && id.value in IdSet(ts)
  {
    if id.Some? && id.value in IdSet(ts) {
      var k :| 0 <= k < |ts| && ts[k].id == id.value;
      assert Some(ts[k].id) == id;
    }
  }

  lemma FindDistinct(ts: seq<Tally>, k: nat)
    requires Distinct(ts) && k < |ts|
    ensures Find(ts, Some(ts[k].id)) == Some(k)
  {
  }

  lemma RegisterShape(ts: seq<Tally>, t: Team)
    requires Distinct(ts)
    ensures Distinct(Register(ts, t))
    ensures IdSet(Register(ts, t)) == IdSet(ts) + {t.id}
    ensures forall k :: 0 <= k < |Register(ts, t)| ==>
              Register(ts, t)[k] == ZeroTally(t) || (k < |ts| && Register(ts, t)[k] == ts[k])
    ensures forall k :: 0 <= k < |Register(ts, t)| && Register(ts, t)[k].id == t.id ==>
              Register(ts, t)[k] == ZeroTally(t)
    ensures t.id in IdSet(ts) ==> |Register(ts, t)| == |ts|
    ensures t.id !in IdSet(ts) ==> Register(ts, t) == ts + [ZeroTally(t)]
  {
    FindIn(ts, Some(t.id));
    var r := Register(ts, t);
    match Find(ts, Some(t.id))
    case Some(k) =>
      assert IdSet(r) == IdSet(ts) by {
        forall x | x in IdSet(ts) ensures x in IdSet(r) {
          var q :| 0 <= q < |ts| && ts[q].id == x;
          assert r[q].id == x;
        }
      }
    case None =>
      assert r == ts + [ZeroTally(t)];
      assert IdSet(r) == IdSet(ts) + {t.id} by {
        assert r[|ts|].id == t.id;
        forall x | x in IdSet(ts) ensures x in IdSet(r) {
          var q :| 0 <= q < |ts| && ts[q].id == x;
          assert r[q].id == x;
        }
      }
  }

  lemma {:induction false} InitTalliesShape(teams: seq<Team>)
    ensures Distinct(InitTallies(teams))
    ensures IdSet(InitTallies(teams)) == TeamIds(teams)
    ensures forall k :: 0 <= k < |InitTallies(teams)| ==> CountersOf(InitTallies(teams)[k]) == NoCounters
  {
    if teams != [] {
      var pre, last := teams[..|teams| - 1], teams[|teams| - 1];
      InitTalliesShape(pre);
      RegisterShape(InitTallies(pre), last);
      assert TeamIds(teams) == TeamIds(pre) + {last.id} by {
        forall x | x in TeamIds(teams) ensures x in TeamIds(pre) + {last.id} {
          var q :| 0 <= q < |teams| && teams[q].id == x;
          if q < |pre| { assert pre[q].id == x; }
        }
        forall x | x in TeamIds(pre) ensures x in TeamIds(teams) {
          var q :| 0 <= q < |pre| && pre[q].id == x;
          assert teams[q].id == x;
        }
        assert teams[|teams| - 1].id == last.id;
      }
    }
  }

  lemma {:induction false} DistinctCard(ts: seq<Tally>)
    requires Distinct(ts)
    ensures |IdSet(ts)| == |ts|
  {
    if ts != [] {
      var pre := ts[..|ts| - 1];
      DistinctCard(pre);
      assert IdSet(ts) == IdSet(pre) + {ts[|ts| - 1].id} by {
        forall x | x in IdSet(ts) ensures x in IdSet(pre) + {ts[|ts| - 1].id} {
          var q :| 0 <= q < |ts| && ts[q].id == x;
          if q < |pre| { assert pre[q].id == x; }
        }
        forall x | x in IdSet(pre) ensures x in IdSet(ts) {
          var q :| 0 <= q < |pre| && pre[q].id == x;
          assert ts[q].id == x;
        }
      }
      assert ts[|ts| - 1].id !in IdSet(pre);
    }
  }

  lemma CreditAdds(t: Tally, own: int, opp: int)
    ensures CountersOf(Credit(t, own, opp)) == Add(CountersOf(t), Share(own, opp))
    ensures Credit(t, own, opp).id == t.id && Credit(t, own, opp).name == t.name && Credit(t, own, opp).code == t.code
  {
  }

  /** What a row gains from one match when it plays side 1, side 2, both or neither. */
  function SidesGain(side1: bool, side2: bool, s1: int, s2: int): Counters
  {
    Counters(
      (if side1 then s1 else 0) + (if side2 then s2 else 0),
      (if side1 then s2 else 0) + (if side2 then s1 else 0),
      (if side1 && s1 > s2 then 1 else 0) + (if side2 && s2 > s1 then 1 else 0),
      (if side1 && s2 > s1 then 1 else 0) + (if side2 && s1 > s2 then 1 else 0))
  }

  /** A row credited as side 1 (scoring `s1`), as side 2 (scoring `s2`), both or neither. */
  function CreditSides(t: Tally, side1: bool, side2: bool, s1: int, s2: int): Tally
  {
    var t' := if side1 then Credit(t, s1, s2) else t;
    if side2 then Credit(t', s2, s1) else t'
  }

  lemma CreditSidesCounters(t: Tally, side1: bool, side2: bool, s1: int, s2: int)
    ensures var r := CreditSides(t, side1, side2, s1, s2);
            r.id == t.id && r.name == t.name && r.code == t.code
    ensures CountersOf(CreditSides(t, side1, side2, s1, s2))
         == Add(CountersOf(t), SidesGain(side1, side2, s1, s2))
  {
  }

  /** The two in-place credits of one match, seen from the row at position `k`. */
  lemma CreditBothAt(ts: seq<Tally>, i: nat, j: nat, s1: int, s2: int, k: nat)
    requires i < |ts| && j < |ts| && k < |ts|
    ensures |CreditBoth(ts, i, j, s1, s2)| == |ts|
    ensures CreditBoth(ts, i, j, s1, s2)[k] == CreditSides(ts[k], k == i, k == j, s1, s2)
  {
  }

  /** One match changes exactly the rows of the teams it names, by what it contributes to them. */
  lemma StepCounters(ts: seq<Tally>, m: MatchDoc)
    requires Distinct(ts)
    ensures |Step(ts, m)| == |ts|
    ensures forall k :: 0 <= k < |ts| ==>
              Step(ts, m)[k].id == ts[k].id && Step(ts, m)[k].name == ts[k].name && Step(ts, m)[k].code == ts[k].code
    ensures forall k :: 0 <= k < |ts| ==>
              CountersOf(Step(ts, m)[k]) == Add(CountersOf(ts[k]), Gain(m, IdSet(ts), ts[k].id))
  {
    FindIn(ts, m.team1Id);
    FindIn(ts, m.team2Id);
    if IsFinal(m) && Find(ts, m.team1Id).Some? && Find(ts, m.team2Id).Some? {
      var i, j := Find(ts, m.team1Id).value, Find(ts, m.team2Id).value;
      var s1, s2 := OrElse(m.score1, 0), OrElse(m.score2, 0);
      forall k | 0 <= k < |ts|
        ensures Step(ts, m)[k].id == ts[k].id && Step(ts, m)[k].name == ts[k].name && Step(ts, m)[k].code == ts[k].code
        ensures CountersOf(Step(ts, m)[k]) == Add(CountersOf(ts[k]), Gain(m, IdSet(ts), ts[k].id))
      {
        CreditBothAt(ts, i, j, s1, s2, k);
        CreditSidesCounters(ts[k], k == i, k == j, s1, s2);
        if k != i { assert ts[k].id != ts[i].id; }
        if k != j { assert ts[k].id != ts[j].id; }
        assert (m.team1Id == Some(ts[k].id)) == (k == i) && (m.team2Id == Some(ts[k].id)) == (k == j);
      }
    }
  }

  /** The fold computes, for every team, the sum of what each match contributes to it. */
  lemma {:induction false} FoldCounters(ts: seq<Tally>, ms: seq<MatchDoc>)
    requires Distinct(ts)
    ensures |Fold(ts, ms)| == |ts| && Distinct(Fold(ts, ms)) && IdSet(Fold(ts, ms)) == IdSet(ts)
    ensures forall k :: 0 <= k < |ts| ==>
              Fold(ts, ms)[k].id == ts[k].id && Fold(ts, ms)[k].name == ts[k].name && Fold(ts, ms)[k].code == ts[k].code
    ensures forall k :: 0 <= k < |ts| ==>
              CountersOf(Fold(ts, ms)[k]) == Add(CountersOf(ts[k]), Ref(ms, IdSet(ts), ts[k].id))
  {
    if ms != [] {
      var pre := ms[..|ms| - 1];
      FoldCounters(ts, pre);
      var f := Fold(ts, pre);
      StepCounters(f, ms[|ms| - 1]);
      assert IdSet(Step(f, ms[|ms| - 1])) == IdSet(f) by {
        forall x | x in IdSet(f) ensures x in IdSet(Step(f, ms[|ms| - 1])) {
          var q :| 0 <= q < |f| && f[q].id == x;
          assert Step(f, ms[|ms| - 1])[q].id == x;
        }
      }
    }
  }

  // ---------------------------------------------------------------------
  // Totals over all rows

  function Total(ts: seq<Tally>): Counters
  {
    if ts == [] then NoCounters else Add(CountersOf(ts[0]), Total(ts[1..]))
  }

  function RowsTotal(rs: seq<Row>): Counters
  {
    if rs == [] then NoCounters else Add(RowCounters(rs[0]), RowsTotal(rs[1..]))
  }

  /** Points for equal points against, and wins equal losses. */
  predicate Balanced(c: Counters)
  {
    c.pf == c.pa && c.wins == c.losses
  }

  lemma {:induction false} TotalUpdate(ts: seq<Tally>, i: nat, t: Tally)
    requires i < |ts|
    ensures Add(Total(ts[i := t]), CountersOf(ts[i])) == Add(Total(ts), CountersOf(t))
  {
    if i > 0 {
      TotalUpdate(ts[1..], i - 1, t);
      assert ts[i := t][1..] == ts[1..][i - 1 := t];
    } else {
      assert ts[i := t][1..] == ts[1..];
    }
  }

  lemma StepBalanced(ts: seq<Tally>, m: MatchDoc)
    requires Balanced(Total(ts))
    ensures Balanced(Total(Step(ts, m)))
  {
    if IsFinal(m) && Find(ts, m.team1Id).Some? && Find(ts, m.team2Id).Some? {
      var i, j := Find(ts, m.team1Id).value, Find(ts, m.team2Id).value;
      var s1, s2 := OrElse(m.score1, 0), OrElse(m.score2, 0);
      var ts' := ts[i := Credit(ts[i], s1, s2)];
      CreditAdds(ts[i], s1, s2);
      TotalUpdate(ts, i, Credit(ts[i], s1, s2));
      CreditAdds(ts'[j], s2, s1);
      TotalUpdate(ts', j, Credit(ts'[j], s2, s1));
    }
  }

  lemma {:induction false} FoldBalanced(ts: seq<Tally>, ms: seq<MatchDoc>)
    requires Balanced(Total(ts))
    ensures Balanced(Total(Fold(ts, ms)))
  {
    if ms != [] {
      FoldBalanced(ts, ms[..|ms| - 1]);
      StepBalanced(Fold(ts, ms[..|ms| - 1]), ms[|ms| - 1]);
    }
  }

  lemma {:induction false} ZeroTotal(ts: seq<Tally>)
    requires forall k :: 0 <= k < |ts| ==> CountersOf(ts[k]) == NoCounters
    ensures Total(ts) == NoCounters
  {
    if ts != [] {
      var rest := ts[1..];
      forall k | 0 <= k < |rest| ensures CountersOf(rest[k]) == NoCounters {
        assert rest[k] == ts[k + 1];
      }
      ZeroTotal(rest);
      assert CountersOf(ts[0]) == NoCounters;
    }
  }

  lemma {:induction false} DeriveTotal(ts: seq<Tally>)
    ensures RowsTotal(DeriveAll(ts)) == Total(ts)
  {
    if ts != [] {
      assert DeriveAll(ts)[1..] == DeriveAll(ts[1..]);
      DeriveTotal(ts[1..]);
    }
  }

  // ---------------------------------------------------------------------
  // The sort

  ghost predicate DistinctRows(rs: seq<Row>)
  {
    forall i, j :: 0 <= i < j < |rs| ==> rs[i].id != rs[j].id
  }

  ghost function RowIdSet(rs: seq<Row>): set<Id>
  {
    set k | 0 <= k < |rs| :: rs[k].id
  }

  /** Inserting adds exactly `x` to the rows. */
  lemma {:induction false} InsertPerm(x: Row, rs: seq<Row>)
    ensures multiset(Insert(x, rs)) == multiset{x} + multiset(rs)
  {
    if rs != [] && x.composite < rs[0].composite {
      InsertPerm(x, rs[1..]);
      assert Insert(x, rs) == [rs[0]] + Insert(x, rs[1..]);
      assert rs == [rs[0]] + rs[1..];
    }
  }

  /** Inserting adds `x`'s counters to the totals. */
  lemma {:induction false} InsertTotal(x: Row, rs: seq<Row>)
    ensures RowsTotal(Insert(x, rs)) == Add(RowCounters(x), RowsTotal(rs))
  {
    if rs != [] && x.composite < rs[0].composite {
      InsertTotal(x, rs[1..]);
      assert Insert(x, rs) == [rs[0]] + Insert(x, rs[1..]);
    }
  }

  /** Inserting into sorted rows keeps them sorted, and puts `x` or the old first row first. */
  lemma {:induction false} InsertSorted(x: Row, rs: seq<Row>)
    requires Sorted(rs)
    ensures |Insert(x, rs)| == |rs| + 1
    ensures Insert(x, rs)[0] == x || (rs != [] && Insert(x, rs)[0] == rs[0])
    ensures Sorted(Insert(x, rs))
  {
    if rs != [] && x.composite < rs[0].composite {
      var rest := Insert(x, rs[1..]);
      InsertSorted(x, rs[1..]);
      assert rest[0].composite <= rs[0].composite by {
        if rest[0] != x {
          assert rest[0] == rs[1];
        }
      }
      var r := Insert(x, rs);
      assert r == [rs[0]] + rest;
      forall i, j | 0 <= i < j < |r| ensures r[i].composite >= r[j].composite {
        assert r[j] == rest[j - 1];
        if i > 0 {
          assert r[i] == rest[i - 1];
        } else if j > 1 {
          assert rest[0].composite >= rest[j - 1].composite;
        }
      }
    }
  }

  /** Inserting into sorted rows keeps them sorted, adds exactly `x` and adds its counters to the totals. */
  lemma InsertFacts(x: Row, rs: seq<Row>)
    requires Sorted(rs)
    ensures Sorted(Insert(x, rs))
    ensures multiset(Insert(x, rs)) == multiset{x} + multiset(rs)
    ensures RowsTotal(Insert(x, rs)) == Add(RowCounters(x), RowsTotal(rs))
  {
    InsertSorted(x, rs);
    InsertPerm(x, rs);
    InsertTotal(x, rs);
  }

  lemma {:induction false} InsertIds(x: Row, rs: seq<Row>)
    requires DistinctRows(rs) && x.id !in RowIdSet(rs)
    ensures DistinctRows(Insert(x, rs))
    ensures RowIdSet(Insert(x, rs)) == {x.id} + RowIdSet(rs)
  {
    var r := Insert(x, rs);
    if rs != [] && x.composite < rs[0].composite {
      assert rs[0].id in RowIdSet(rs);
      assert RowIdSet(rs[1..]) <= RowIdSet(rs) by {
        forall y | y in RowIdSet(rs[1..]) ensures y in RowIdSet(rs) {
          var q :| 0 <= q < |rs[1..]| && rs[1..][q].id == y;
          assert rs[q + 1].id == y;
        }
      }
      InsertIds(x, rs[1..]);
      assert rs[0].id !in RowIdSet(rs[1..]) by {
        forall q | 0 <= q < |rs[1..]| ensures rs[1..][q].id != rs[0].id {
          assert rs[1..][q] == rs[q + 1];
        }
      }
      RowIdSetCons(rs[0], Insert(x, rs[1..]));
      RowIdSetCons(rs[0], rs[1..]);
      assert rs == [rs[0]] + rs[1..];
    } else {
      RowIdSetCons(x, rs);
    }
  }

  lemma RowIdSetCons(y: Row, rs: seq<Row>)
    ensures RowIdSet([y] + rs) == {y.id} + RowIdSet(rs)
    ensures DistinctRows(rs) && y.id !in RowIdSet(rs) ==> DistinctRows([y] + rs)
  {
    var s := [y] + rs;
    assert s[0] == y;
    forall z | z in RowIdSet(s) ensures z in {y.id} + RowIdSet(rs) {
      var q :| 0 <= q < |s| && s[q].id == z;
      if q > 0 { assert rs[q - 1].id == z; }
    }
    forall z | z in {y.id} + RowIdSet(rs) ensures z in RowIdSet(s) {
      if z != y.id {
        var q :| 0 <= q < |rs| && rs[q].id == z;
        assert s[q + 1].id == z;
      }
    }
    if DistinctRows(rs) && y.id !in RowIdSet(rs) {
      forall i, j | 0 <= i < j < |s| ensures s[i].id != s[j].id {
        assert s[j] == rs[j - 1];
        if i > 0 { assert s[i] == rs[i - 1]; } else { assert rs[j - 1].id in RowIdSet(rs); }
      }
    }
  }

  /** The rows after the first are distinct and do not hold the first row's id. */
  lemma DistinctTail(rs: seq<Row>)
    requires rs != [] && DistinctRows(rs)
    ensures DistinctRows(rs[1..]) && rs[0].id !in RowIdSet(rs[1..])
  {
    forall q | 0 <= q < |rs[1..]| ensures rs[1..][q].id != rs[0].id {
      assert rs[1..][q] == rs[q + 1];
    }
    forall i, j | 0 <= i < j < |rs[1..]| ensures rs[1..][i].id != rs[1..][j].id {
      assert rs[1..][i] == rs[i + 1] && rs[1..][j] == rs[j + 1];
    }
  }

  /** The sort gives sorted rows that are a permutation of its input. */
  lemma {:induction false} RankSorted(rs: seq<Row>)
    ensures Sorted(Rank(rs)) && multiset(Rank(rs)) == multiset(rs)
  {
    if rs != [] {
      RankSorted(rs[1..]);
      InsertSorted(rs[0], Rank(rs[1..]));
      InsertPerm(rs[0], Rank(rs[1..]));
      assert rs == [rs[0]] + rs[1..];
    }
  }

  /** The sort keeps the totals. */
  lemma {:induction false} RankTotal(rs: seq<Row>)
    ensures RowsTotal(Rank(rs)) == RowsTotal(rs)
  {
    if rs != [] {
      RankTotal(rs[1..]);
      InsertTotal(rs[0], Rank(rs[1..]));
    }
  }

  /** The sort keeps distinct ids distinct, and keeps the set of ids. */
  lemma {:induction false} RankIds(rs: seq<Row>)
    requires DistinctRows(rs)
    ensures DistinctRows(Rank(rs)) && RowIdSet(Rank(rs)) == RowIdSet(rs)
  {
    if rs != [] {
      DistinctTail(rs);
      RankIds(rs[1..]);
      InsertIds(rs[0], Rank(rs[1..]));
      RowIdSetCons(rs[0], rs[1..]);
      assert rs == [rs[0]] + rs[1..];
    }
  }

  /** What the standings page relies on from the sort: sorted, a permutation, the same totals and ids. */
  lemma RankFacts(rs: seq<Row>)
    ensures Sorted(Rank(rs))
    ensures multiset(Rank(rs)) == multiset(rs)
    ensures |Rank(rs)| == |rs|
    ensures RowsTotal(Rank(rs)) == RowsTotal(rs)
    ensures DistinctRows(rs) ==> DistinctRows(Rank(rs)) && RowIdSet(Rank(rs)) == RowIdSet(rs)
  {
    RankSorted(rs);
    RankTotal(rs);
    assert |Rank(rs)| == |multiset(Rank(rs))|;
    if DistinctRows(rs) {
      RankIds(rs);
    }
  }

  // ---------------------------------------------------------------------
  // What buildStandings promises

  /** The rows, sorted by composite, highest first. */
  lemma StandingsSorted(teams: seq<Team>, ms: seq<MatchDoc>)
    ensures Sorted(StandingsOf(teams, ms))
    ensures multiset(StandingsOf(teams, ms)) == multiset(DeriveAll(Fold(InitTallies(teams), ms)))
  {
    RankFacts(DeriveAll(Fold(InitTallies(teams), ms)));
  }

  lemma DeriveIds(ts: seq<Tally>)
    requires Distinct(ts)
    ensures DistinctRows(DeriveAll(ts))
    ensures RowIdSet(DeriveAll(ts)) == IdSet(ts)
  {
    var d := DeriveAll(ts);
    forall x | x in IdSet(ts) ensures x in RowIdSet(d) {
      var q :| 0 <= q < |ts| && ts[q].id == x;
      assert d[q].id == x;
    }
  }

  /** Exactly one row per distinct team id, and no other rows. */
  lemma StandingsOneRowPerTeam(teams: seq<Team>, ms: seq<MatchDoc>)
    ensures RowIdSet(StandingsOf(teams, ms)) == TeamIds(teams)
    ensures DistinctRows(StandingsOf(teams, ms))
    ensures |StandingsOf(teams, ms)| == |TeamIds(teams)|
  {
    var init := InitTallies(teams);
    InitTalliesShape(teams);
    FoldCounters(init, ms);
    var f := Fold(init, ms);
    DeriveIds(f);
    RankFacts(DeriveAll(f));
    DistinctCard(f);
  }

  /** Before the sort: row `k` holds the counters the reference assigns to its team. */
  lemma DerivedRowCounters(teams: seq<Team>, ms: seq<MatchDoc>)
    ensures forall k :: 0 <= k < |DeriveAll(Fold(InitTallies(teams), ms))| ==>
              RowCounters(DeriveAll(Fold(InitTallies(teams), ms))[k])
              == Ref(ms, TeamIds(teams), DeriveAll(Fold(InitTallies(teams), ms))[k].id)
  {
    var init := InitTallies(teams);
    InitTalliesShape(teams);
    FoldCounters(init, ms);
    var f := Fold(init, ms);
    var d := DeriveAll(f);
    forall k | 0 <= k < |d| ensures RowCounters(d[k]) == Ref(ms, TeamIds(teams), d[k].id) {
      assert CountersOf(init[k]) == NoCounters;
      assert RowCounters(d[k]) == CountersOf(f[k]);
    }
  }

  /**
   * Every row holds, for its team, the sum over final matches between known
   * teams of the points it scored and conceded and of its wins and losses,
   * with its derived fields computed from those counters.
   */
  lemma StandingsRowCounters(teams: seq<Team>, ms: seq<MatchDoc>)
    ensures forall r :: r in StandingsOf(teams, ms) ==>
              && RowCounters(r) == Ref(ms, TeamIds(teams), r.id)
              && r.diff == r.pf - r.pa
              && r.composite == Composite(r.wins, r.pf, r.pa)
              && r.winPct == WinPct(r.wins, r.losses)
  {
    var d := DeriveAll(Fold(InitTallies(teams), ms));
    StandingsSorted(teams, ms);
    DerivedRowCounters(teams, ms);
    forall r | r in StandingsOf(teams, ms)
      ensures RowCounters(r) == Ref(ms, TeamIds(teams), r.id)
      ensures r.diff == r.pf - r.pa && r.composite == Composite(r.wins, r.pf, r.pa) && r.winPct == WinPct(r.wins, r.losses)
    {
      assert r in multiset(d);
      var k :| 0 <= k < |d| && d[k] == r;
    }
  }

  /** Matches that do not count for a team leave nothing in its row. */
  lemma {:induction false} RefUntouched(ms: seq<MatchDoc>, known: set<Id>, id: Id)
    requires forall m :: m in ms && Counted(m, known) ==> m.team1Id != Some(id) && m.team2Id != Some(id)
    ensures Ref(ms, known, id) == NoCounters
  {
    if ms != [] {
      RefUntouched(ms[..|ms| - 1], known, id);
    }
  }

  /** A team with no counted match has an all-zero row, a zero difference and a zero win ratio. */
  lemma NoMatchesZeroRow(teams: seq<Team>, ms: seq<MatchDoc>, r: Row)
    requires r in StandingsOf(teams, ms)
    requires forall m :: m in ms && Counted(m, TeamIds(teams)) ==> m.team1Id != Some(r.id) && m.team2Id != Some(r.id)
    ensures r.pf == 0 && r.pa == 0 && r.wins == 0 && r.losses == 0
    ensures r.diff == 0 && r.winPct == 0.0
  {
    StandingsRowCounters(teams, ms);
    RefUntouched(ms, TeamIds(teams), r.id);
  }

  /** Over all rows, points for equal points against and wins equal losses. */
  lemma StandingsBalanced(teams: seq<Team>, ms: seq<MatchDoc>)
    ensures Balanced(RowsTotal(StandingsOf(teams, ms)))
  {
    var init := InitTallies(teams);
    InitTalliesShape(teams);
    ZeroTotal(init);
    FoldBalanced(init, ms);
    DeriveTotal(Fold(init, ms));
    RankFacts(DeriveAll(Fold(init, ms)));
  }

  /** The score `updateScore` stores as winner is the team the fold credits with the win. */
  lemma ScoredWinnerIsCredited(m0: MatchDoc, s1: int, s2: int, known: set<Id>, id: Id)
    requires m0.team1Id != m0.team2Id
    requires Counted(ApplyPatch(m0, UpdateScore(s1, s2, m0.team1Id, m0.team2Id)), known)
    ensures var m := ApplyPatch(m0, UpdateScore(s1, s2, m0.team1Id, m0.team2Id));
            && Gain(m, known, id).wins == (if m.winnerId == Some(id) then 1 else 0)
            && Gain(m, known, id).losses ==
                 (if m.winnerId.Some? && m.winnerId != Some(id) && (m.team1Id == Some(id) || m.team2Id == Some(id))
                  then 1 else 0)
  {
  }

  lemma {:induction false} FoldSkips(ts: seq<Tally>, ms: seq<MatchDoc>, i: nat)
    requires i < |ms| && !IsFinal(ms[i])
    ensures Fold(ts, ms) == Fold(ts, ms[..i] + ms[i + 1..])
  {
    var n := |ms|;
    if i == n - 1 {
      assert ms[..i] + ms[i + 1..] == ms[..n - 1];
    } else {
      FoldSkips(ts, ms[..n - 1], i);
      var rest := ms[..i] + ms[i + 1..];
      assert rest[..|rest| - 1] == ms[..n - 1][..i] + ms[..n - 1][i + 1..];
      assert rest[|rest| - 1] == ms[n - 1];
    }
  }

  /**
   * A match whose score was written and then cleared is ignored by the
   * standings: the result is the one without that match.
   */
  lemma ClearedMatchIgnored(teams: seq<Team>, ms: seq<MatchDoc>, i: nat, s1: int, s2: int)
    requires i < |ms|
    ensures var cleared := ApplyPatch(ApplyPatch(ms[i], UpdateScore(s1, s2, ms[i].team1Id, ms[i].team2Id)), ClearScore());
            StandingsOf(teams, ms[i := cleared]) == StandingsOf(teams, ms[..i] + ms[i + 1..])
  {
    var cleared := ApplyPatch(ApplyPatch(ms[i], UpdateScore(s1, s2, ms[i].team1Id, ms[i].team2Id)), ClearScore());
    var ms' := ms[i := cleared];
    FoldSkips(InitTallies(teams), ms', i);
    assert ms'[..i] + ms'[i + 1..] == ms[..i] + ms[i + 1..];
  }

  // ---------------------------------------------------------------------
  // The tie-break order of the composite key

  /** Points for and against up to this bound keep the win term dominant: 201 * 497 < 100000. */
  const PointsBound: int := 497

  /**
   * More wins rank first when points are in range. With equal wins a row
   * ranks above another exactly when 100 times its difference lead exceeds
   * its points-for lag; so a higher difference ranks first whenever
   * points-for lags by less than 100. With equal wins and difference,
   * higher points-for ranks first.
   */
  lemma CompositeOrder(w1: int, pf1: int, pa1: int, w2: int, pf2: int, pa2: int)
    ensures (w1 > w2 && 0 <= pf1 <= PointsBound && 0 <= pa1 <= PointsBound
             && 0 <= pf2 <= PointsBound && 0 <= pa2 <= PointsBound)
            ==> Composite(w1, pf1, pa1) > Composite(w2, pf2, pa2)
    ensures w1 == w2 && pf1 - pa1 > pf2 - pa2 && pf2 < pf1 + DiffWeight
            ==> Composite(w1, pf1, pa1) > Composite(w2, pf2, pa2)
    ensures w1 == w2 && pf1 - pa1 == pf2 - pa2 && pf1 > pf2
            ==> Composite(w1, pf1, pa1) > Composite(w2, pf2, pa2)
    ensures w1 == w2 ==>
              (Composite(w1, pf1, pa1) > Composite(w2, pf2, pa2)
               <==> DiffWeight * ((pf1 - pa1) - (pf2 - pa2)) > pf2 - pf1)
  {
    if w1 > w2 {
      assert (w1 - w2) * WinWeight >= WinWeight;
    }
  }

  /** The limit of the difference tie-break: 3 wins, +6 on 60 points ranks below 3 wins, +5 on 260 points. */
  lemma DiffTieBreakLimit()
    ensures Composite(3, 60, 54) < Composite(3, 260, 255)
  {
  }

  /** In the standings a row with a larger composite comes first, hence the on-page tie-break order. */
  lemma StandingsTieBreaks(teams: seq<Team>, ms: seq<MatchDoc>, i: nat, j: nat)
    requires i < |StandingsOf(teams, ms)| && j < |StandingsOf(teams, ms)|
    ensures var rs := StandingsOf(teams, ms);
            rs[i].composite > rs[j].composite ==> i < j
    ensures var a, b := StandingsOf(teams, ms)[i], StandingsOf(teams, ms)[j];
            (a.wins > b.wins && 0 <= a.pf <= PointsBound && 0 <= a.pa <= PointsBound
             && 0 <= b.pf <= PointsBound && 0 <= b.pa <= PointsBound) ==> i < j
    ensures var a, b := StandingsOf(teams, ms)[i], StandingsOf(teams, ms)[j];
            a.wins == b.wins && a.diff > b.diff && b.pf < a.pf + DiffWeight ==> i < j
    ensures var a, b := StandingsOf(teams, ms)[i], StandingsOf(teams, ms)[j];
            a.wins == b.wins && a.diff == b.diff && a.pf > b.pf ==> i < j
  {
    var rs := StandingsOf(teams, ms);
    StandingsSorted(teams, ms);
    StandingsRowCounters(teams, ms);
    assert rs[i] in rs && rs[j] in rs;
    CompositeOrder(rs[i].wins, rs[i].pf, rs[i].pa, rs[j].wins, rs[j].pf, rs[j].pa);
  }
}

/**
 * The derivations of the knockout page, src/pages/KnockoutPage.tsx: whether
 * seeding is allowed, the seeds read off the live standings, the guard in
 * front of the seeding write, the teams each knockout match is shown with
 * and whether it can be edited, whether there is anything to clear, and the
 * local game tally that unlocks the third game of a match.
 *
 * The page's `buildStandings` is the same text as the standings page's and is
 * modelled by `Standings.BuildStandings` and `Standings.StandingsOf`.
 */
module KnockoutPage {
  import opened Common
  import opened Firestore
  import opened Standings
  import opened Bracket

  /** What the page has loaded: the two groups' teams and matches, and the bracket document (None when missing). */
  datatype PageData = PageData(
    teamsA: seq<Team>, teamsB: seq<Team>,
    matchesA: seq<MatchDoc>, matchesB: seq<MatchDoc>,
    bracket: Option<BracketRecord>)

  function RowsA(p: PageData): seq<Row>
  {
    StandingsOf(p.teamsA, p.matchesA)
  }

  function RowsB(p: PageData): seq<Row>
  {
    StandingsOf(p.teamsB, p.matchesB)
  }

  // ---------------------------------------------------------------------
  // Seeding

  /** `matches.some(m => m.status === 'final')` */
  predicate HasResults(ms: seq<MatchDoc>)
  {
    exists i :: 0 <= i < |ms| && IsFinal(ms[i])
  }

  /** Both groups have at least one final match. */
  predicate AllowSeeds(p: PageData)
  {
    HasResults(p.matchesA) && HasResults(p.matchesB)
  }

  datatype Seeds = Seeds(a1: Option<Id>, a2: Option<Id>, b1: Option<Id>, b2: Option<Id>)

  /** `rows[i]?.id ?? null` */
  function RowId(rows: seq<Row>, i: nat): Option<Id>
  {
    if i < |rows| then Some(rows[i].id) else None
  }

  /** `liveSeeds`: the first two rows of each group when seeding is allowed, all null otherwise. */
  function LiveSeeds(p: PageData): Seeds
  {
    if AllowSeeds(p) then Seeds(RowId(RowsA(p), 0), RowId(RowsA(p), 1), RowId(RowsB(p), 0), RowId(RowsB(p), 1))
    else Seeds(None, None, None, None)
  }

  /** All four seeds are truthy. */
  predicate Complete(s: Seeds)
  {
    Truthy(s.a1) && Truthy(s.a2) && Truthy(s.b1) && Truthy(s.b2)
  }

  /** `disabled` of the "Set Seeds from Standings" button. */
  predicate SeedButtonDisabled(p: PageData)
  {
    var s := LiveSeeds(p);
    !AllowSeeds(p) || !Truthy(s.a1) || !Truthy(s.a2) || !Truthy(s.b1) || !Truthy(s.b2)
  }

  /** The button's click: the seeding write when all four seeds are set, otherwise nothing (an alert). */
  function OnSetSeeds(p: PageData, r: BracketRecord): BracketRecord
  {
    var s := LiveSeeds(p);
    if Complete(s) then AfterSetSeeds(r, s.a1.value, s.a2.value, s.b1.value, s.b2.value) else r
  }

  /**
   * Without results in both groups every seed is null. With them, a seed is
   * set exactly when its group has that many teams, and it is the id of the
   * row at that place in the group's standings.
   */
  lemma LiveSeedsFromRows(p: PageData)
    ensures !AllowSeeds(p) ==> LiveSeeds(p) == Seeds(None, None, None, None)
    ensures AllowSeeds(p) ==>
              && (LiveSeeds(p).a1.Some? <==> |TeamIds(p.teamsA)| >= 1)
              && (LiveSeeds(p).a2.Some? <==> |TeamIds(p.teamsA)| >= 2)
              && (LiveSeeds(p).b1.Some? <==> |TeamIds(p.teamsB)| >= 1)
              && (LiveSeeds(p).b2.Some? <==> |TeamIds(p.teamsB)| >= 2)
  {
    StandingsOneRowPerTeam(p.teamsA, p.matchesA);
    StandingsOneRowPerTeam(p.teamsB, p.matchesB);
  }

  /**
   * The first seed of a group is a team of that group with the highest
   * composite; the second is a different team of the group, ranked at least
   * as high as every team after it.
   */
  lemma SeedsAreTopTwo(teams: seq<Team>, ms: seq<MatchDoc>)
    ensures var rows := StandingsOf(teams, ms);
            |rows| >= 1 ==>
              && RowId(rows, 0).value in TeamIds(teams)
              && forall k :: 0 <= k < |rows| ==> rows[k].composite <= rows[0].composite
    ensures var rows := StandingsOf(teams, ms);
            |rows| >= 2 ==>
              && RowId(rows, 1).value in TeamIds(teams)
              && RowId(rows, 1) != RowId(rows, 0)
              && forall k :: 1 <= k < |rows| ==> rows[k].composite <= rows[1].composite
  {
    var rows := StandingsOf(teams, ms);
    StandingsSorted(teams, ms);
    StandingsOneRowPerTeam(teams, ms);
    if |rows| >= 1 {
      assert rows[0].id in RowIdSet(rows);
    }
    if |rows| >= 2 {
      assert rows[1].id in RowIdSet(rows);
    }
  }

  /** The button is enabled exactly when a click writes the seeds. */
  lemma SeedButtonGuard(p: PageData, r: BracketRecord)
    ensures !SeedButtonDisabled(p) <==> Complete(LiveSeeds(p))
    ensures !Complete(LiveSeeds(p)) ==> OnSetSeeds(p, r) == r
  {
  }

  /**
   * A click with complete seeds pairs the top team of group A with the
   * second of group B, and the top team of group B with the second of
   * group A.
   */
  lemma SeedClickPairs(p: PageData, r: BracketRecord)
    requires Complete(LiveSeeds(p))
    ensures |RowsA(p)| >= 2 && |RowsB(p)| >= 2
    ensures var r' := OnSetSeeds(p, r);
            && r'.sf1.team1Id == Some(RowsA(p)[0].id) && r'.sf1.team2Id == Some(RowsB(p)[1].id)
            && r'.sf2.team1Id == Some(RowsB(p)[0].id) && r'.sf2.team2Id == Some(RowsA(p)[1].id)
            && r'.final.team1Id.None? && r'.final.team2Id.None? && r'.championId.None?
  {
    var s := LiveSeeds(p);
    SeedsCross(r, s.a1.value, s.a2.value, s.b1.value, s.b2.value);
  }

  // ---------------------------------------------------------------------
  // The knockout matches as shown

  /** `bracket?.sf1 || {}` and the like. */
  function StoredMatch(b: Option<BracketRecord>, key: KOKey): KOMatch
  {
    match b
    case None => EmptyMatch
    case Some(r) => MatchOf(r, key)
  }

  /** The three matches as shown, and whether each one's inputs are disabled. */
  datatype KOView = KOView(
    sf1: KOMatch, sf2: KOMatch, final: KOMatch,
    sf1Disabled: bool, sf2Disabled: bool, finalDisabled: bool)

  /**
   * `sf1ForView`, `sf2ForView`, `finForView` and their disabled flags: each
   * semifinal shows its stored teams, a missing one replaced by the live
   * seed (A1 against B2, B1 against A2), and nothing while seeding is not
   * allowed; the final shows the semifinal winners only.
   */
  function View(p: PageData): KOView
  {
    var allow, s := AllowSeeds(p), LiveSeeds(p);
    var sf1, sf2, fin := StoredMatch(p.bracket, SF1), StoredMatch(p.bracket, SF2), StoredMatch(p.bracket, Final);
    var s11 := if allow then Coalesce(sf1.team1Id, s.a1) else None;
    var s12 := if allow then Coalesce(sf1.team2Id, s.b2) else None;
    var s21 := if allow then Coalesce(sf2.team1Id, s.b1) else None;
    var s22 := if allow then Coalesce(sf2.team2Id, s.a2) else None;
    var f1 := if Truthy(sf1.winnerId) && allow then sf1.winnerId else None;
    var f2 := if Truthy(sf2.winnerId) && allow then sf2.winnerId else None;
    KOView(
      sf1.(team1Id := s11, team2Id := s12),
      sf2.(team1Id := s21, team2Id := s22),
      fin.(team1Id := f1, team2Id := f2),
      !(Truthy(s11) && Truthy(s12)),
      !(Truthy(s21) && Truthy(s22)),
      !(Truthy(f1) && Truthy(f2)))
  }

  /** Without results in both groups no team is shown and every match is disabled. */
  lemma ViewHiddenWithoutResults(p: PageData)
    requires !AllowSeeds(p)
    ensures var v := View(p);
            && v.sf1.team1Id.None? && v.sf1.team2Id.None? && v.sf2.team1Id.None? && v.sf2.team2Id.None?
            && v.final.team1Id.None? && v.final.team2Id.None?
            && v.sf1Disabled && v.sf2Disabled && v.finalDisabled
  {
  }

  /**
   * With seeding allowed, a semifinal shows the stored team wherever one is
   * stored and the live seed elsewhere; it is enabled exactly when both
   * shown ids are truthy. Its games, counts and winner are the stored ones.
   */
  lemma SemifinalView(p: PageData)
    requires AllowSeeds(p)
    ensures var v, s := View(p), LiveSeeds(p);
            var sf1, sf2 := StoredMatch(p.bracket, SF1), StoredMatch(p.bracket, SF2);
            && v.sf1.team1Id == (if sf1.team1Id.Some? then sf1.team1Id else s.a1)
            && v.sf1.team2Id == (if sf1.team2Id.Some? then sf1.team2Id else s.b2)
            && v.sf2.team1Id == (if sf2.team1Id.Some? then sf2.team1Id else s.b1)
            && v.sf2.team2Id == (if sf2.team2Id.Some? then sf2.team2Id else s.a2)
            && (v.sf1Disabled <==> !(Truthy(v.sf1.team1Id) && Truthy(v.sf1.team2Id)))
            && (v.sf2Disabled <==> !(Truthy(v.sf2.team1Id) && Truthy(v.sf2.team2Id)))
            && Games(v.sf1) == Games(sf1) && v.sf1.winnerId == sf1.winnerId
            && Games(v.sf2) == Games(sf2) && v.sf2.winnerId == sf2.winnerId
  {
  }

  /**
   * The final shows in each slot the winner of the semifinal feeding it,
   * when that winner is truthy and seeding is allowed, and null otherwise,
   * whatever the stored final's team slots hold; it is enabled exactly when
   * both semifinals have a winner.
   */
  lemma FinalViewFromWinners(p: PageData, t1: Option<Id>, t2: Option<Id>)
    ensures var v, sf1, sf2 := View(p), StoredMatch(p.bracket, SF1), StoredMatch(p.bracket, SF2);
            && v.final.team1Id == (if AllowSeeds(p) && Truthy(sf1.winnerId) then sf1.winnerId else None)
            && v.final.team2Id == (if AllowSeeds(p) && Truthy(sf2.winnerId) then sf2.winnerId else None)
            && (v.finalDisabled <==> !(AllowSeeds(p) && Truthy(sf1.winnerId) && Truthy(sf2.winnerId)))
    ensures p.bracket.Some? ==>
              var r := p.bracket.value;
              var q := p.(bracket := Some(r.(final := r.final.(team1Id := t1, team2Id := t2))));
              View(q) == View(p)
  {
  }

  /**
   * After a semifinal is saved with a truthy winner, the final the page
   * shows (when seeding is allowed) has that winner in the same slot as the
   * stored final.
   */
  lemma ViewAgreesWithStore(p: PageData, key: KOKey, game: KOGame, t1: Option<int>, t2: Option<int>)
    requires p.bracket.Some? && key != Final && AllowSeeds(p)
    ensures var r' := AfterSave(p.bracket.value, key, game, t1, t2);
            var v := View(p.(bracket := Some(r')));
            Truthy(MatchOf(r', key).winnerId) ==>
              (if key == SF1 then v.final.team1Id == r'.final.team1Id else v.final.team2Id == r'.final.team2Id)
  {
    SemifinalAdvances(p.bracket.value, key, game, t1, t2);
  }

  /** `onSaveAll`: games 1, 2 and 3 of a match's inputs saved one after another. */
  function SaveAll(r: BracketRecord, key: KOKey, g1: Game, g2: Game, g3: Game): BracketRecord
  {
    var r1 := AfterSave(r, key, 1, g1.t1, g1.t2);
    var r2 := AfterSave(r1, key, 2, g2.t1, g2.t2);
    AfterSave(r2, key, 3, g3.t1, g3.t2)
  }

  /**
   * After the three saves the match holds exactly the three games entered,
   * with the same teams, and its counts and winner are those the three
   * games give.
   */
  lemma SaveAllStoresInputs(r: BracketRecord, key: KOKey, g1: Game, g2: Game, g3: Game)
    ensures var m0, m := MatchOf(r, key), MatchOf(SaveAll(r, key, g1, g2, g3), key);
            && Games(m) == [Some(g1), Some(g2), Some(g3)]
            && m.team1Id == m0.team1Id && m.team2Id == m0.team2Id
            && Wins(m.gamesWonT1, m.gamesWonT2) == Count([Some(g1), Some(g2), Some(g3)])
            && m.winnerId == MatchWinner(Count([Some(g1), Some(g2), Some(g3)]), m0.team1Id, m0.team2Id)
  {
    var r1 := AfterSave(r, key, 1, g1.t1, g1.t2);
    var r2 := AfterSave(r1, key, 2, g2.t1, g2.t2);
    SaveWritesOneGame(r, key, 1, g1.t1, g1.t2);
    SaveWritesOneGame(r1, key, 2, g2.t1, g2.t2);
    SaveWritesOneGame(r2, key, 3, g3.t1, g3.t2);
  }

  // ---------------------------------------------------------------------
  // Anything to clear

  /** `hasAnySeeds`: some team slot of the three matches, or the champion, is truthy. */
  predicate HasAnySeeds(b: Option<BracketRecord>)
  {
    b.Some? &&
    var r := b.value;
    Truthy(r.sf1.team1Id) || Truthy(r.sf1.team2Id) || Truthy(r.sf2.team1Id) || Truthy(r.sf2.team2Id)
    || Truthy(r.final.team1Id) || Truthy(r.final.team2Id) || Truthy(r.championId)
  }

  /**
   * Nothing to clear without a bracket or right after the seeds are
   * cleared; something to clear right after seeding with a non-empty id.
   */
  lemma HasAnySeedsAfterWrites(r: BracketRecord, a1: Id, a2: Id, b1: Id, b2: Id)
    ensures !HasAnySeeds(None)
    ensures !HasAnySeeds(Some(AfterClearSeeds(r)))
    ensures HasAnySeeds(Some(AfterSetSeeds(r, a1, a2, b1, b2))) <==> a1 != "" || a2 != "" || b1 != "" || b2 != ""
    ensures HasAnySeeds(Some(r)) ==> AfterClearSeeds(r) != r
  {
  }

  // ---------------------------------------------------------------------
  // The third game's lock

  /** Both score inputs of a game are filled in (`toN` of a blank input is null). */
  predicate Filled(g: Game)
  {
    g.t1.Some? && g.t2.Some?
  }

  /** `localWins`: games 1 and 2 of the inputs, tallied like the stored games. */
  method LocalWins(g1: Game, g2: Game) returns (a: nat, b: nat)
    ensures Wins(a, b) == Count([Some(g1), Some(g2)])
  {
    a, b := 0, 0;
    if g1.t1.Some? && g1.t2.Some? {
      if g1.t1.value > g1.t2.value {
        a := a + 1;
      } else if g1.t2.value > g1.t1.value {
        b := b + 1;
      }
    }
    if g2.t1.Some? && g2.t2.Some? {
      if g2.t1.value > g2.t2.value {
        a := a + 1;
      } else if g2.t2.value > g2.t1.value {
        b := b + 1;
      }
    }
    CountTwo(Some(g1), Some(g2));
  }

  /** `g3Locked`: game 3 stays locked unless games 1 and 2 are filled in and split 1-1. */
  predicate G3Locked(g1: Game, g2: Game)
  {
    var w := Count([Some(g1), Some(g2)]);
    !(Filled(g1) && Filled(g2) && w.t1 == 1 && w.t2 == 1)
  }

  /** Game 3 is open exactly when each side has taken one of the first two games. */
  lemma G3UnlockedIff(g1: Game, g2: Game)
    ensures !G3Locked(g1, g2) <==>
              (GameWinner(Some(g1)) == Team1 && GameWinner(Some(g2)) == Team2)
              || (GameWinner(Some(g1)) == Team2 && GameWinner(Some(g2)) == Team1)
  {
    CountTwo(Some(g1), Some(g2));
  }
}

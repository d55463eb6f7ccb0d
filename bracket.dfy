/**
 * The knockout bracket of src/lib/bracket.ts: one stored record holding the
 * two semifinals, the final and the champion, and the four writes that
 * change it.
 *
 * Each write is specified by a function from the record before the write to
 * the record after it (`AfterSave`, `AfterClearMatch`, `AfterSetSeeds`,
 * `AfterClearSeeds`), and carried out by a method of the `Bracket` class that
 * updates the record's fields step by step, as the source updates the object
 * it read. Reading and writing the store is left out: a `Bracket` object is
 * the record as read, and its state when a method returns is the record
 * written back.
 *
 * `updateDoc` replaces each top-level field it is given, so the object a
 * write rebuilds replaces the stored match whole; `setDoc` with `merge: true`
 * merges field by field, so game slots and the `_prevT1`/`_prevT2` markers
 * that a seeding write does not name stay as stored.
 */
module Bracket {
  import opened Common

  datatype KOKey = SF1 | SF2 | Final

  /** A game number of a best-of-3 match. */
  type KOGame = g: int | 1 <= g <= 3 witness 1

  /** The two scores of one game; a score that is not a number is None. */
  datatype Game = Game(t1: Option<int>, t2: Option<int>)

  /** `{}`: a game slot that exists but holds no scores. */
  const EmptyGame := Game(None, None)

  /**
   * One knockout match. An absent or null game slot is None. The games-won
   * counts are read with `?? 0` everywhere, so an absent count is stored as
   * 0. The `_prev` markers are only ever set on the final.
   */
  datatype KOMatch = KOMatch(
    team1Id: Option<Id>, team2Id: Option<Id>,
    g1: Option<Game>, g2: Option<Game>, g3: Option<Game>,
    gamesWonT1: nat, gamesWonT2: nat,
    winnerId: Option<Id>,
    prevT1: Option<Id>, prevT2: Option<Id>)

  /** `{}`: an absent match. */
  const EmptyMatch := KOMatch(None, None, None, None, None, 0, 0, None, None, None)

  datatype BracketRecord = BracketRecord(sf1: KOMatch, sf2: KOMatch, final: KOMatch, championId: Option<Id>)

  /** The record read when the document does not exist. */
  const EmptyRecord := BracketRecord(EmptyMatch, EmptyMatch, EmptyMatch, None)

  function MatchOf(r: BracketRecord, key: KOKey): KOMatch
  {
    match key
    case SF1 => r.sf1
    case SF2 => r.sf2
    case Final => r.final
  }

  /** `cur[matchKey] = m` */
  function WithMatch(r: BracketRecord, key: KOKey, m: KOMatch): (r': BracketRecord)
    ensures MatchOf(r', key) == m && r'.championId == r.championId
    ensures forall k :: k != key ==> MatchOf(r', k) == MatchOf(r, k)
  {
    match key
    case SF1 => r.(sf1 := m)
    case SF2 => r.(sf2 := m)
    case Final => r.(final := m)
  }

  // ---------------------------------------------------------------------
  // Counting games

  function Games(m: KOMatch): seq<Option<Game>>
  {
    [m.g1, m.g2, m.g3]
  }

  datatype Side = Team1 | Team2 | Neither

  /**
   * Who takes a game: it counts only when both scores are numbers, goes to
   * the strictly higher score, and an equal score counts for neither side.
   */
  function GameWinner(g: Option<Game>): (s: Side)
    ensures s == Team1 <==> g.Some? && g.value.t1.Some? && g.value.t2.Some? && g.value.t1.value > g.value.t2.value
    ensures s == Team2 <==> g.Some? && g.value.t1.Some? && g.value.t2.Some? && g.value.t2.value > g.value.t1.value
  {
    if g.Some? && g.value.t1.Some? && g.value.t2.Some? then
      if g.value.t1.value > g.value.t2.value then Team1
      else if g.value.t2.value > g.value.t1.value then Team2
      else Neither
    else Neither
  }

  /** Games won by each side. */
  datatype Wins = Wins(t1: nat, t2: nat)

  /** The games-won tally over a list of game slots. */
  function Count(gs: seq<Option<Game>>): Wins
  {
    if gs == [] then Wins(0, 0)
    else
      var w := Count(gs[..|gs| - 1]);
      match GameWinner(gs[|gs| - 1])
      case Team1 => Wins(w.t1 + 1, w.t2)
      case Team2 => Wins(w.t1, w.t2 + 1)
      case Neither => w
  }

  /** The ternary that names the winner: the side with more games, null on equal counts. */
  function MatchWinner(w: Wins, team1Id: Option<Id>, team2Id: Option<Id>): (r: Option<Id>)
    ensures w.t1 > w.t2 ==> r == team1Id
    ensures w.t2 > w.t1 ==> r == team2Id
    ensures w.t1 == w.t2 ==> r.None?
  {
    if w.t1 > w.t2 then team1Id else if w.t2 > w.t1 then team2Id else None
  }

  /** The games-won counts and the winner as recomputed from the stored game slots. */
  function Recount(m: KOMatch): KOMatch
  {
    var w := Count(Games(m));
    m.(gamesWonT1 := w.t1, gamesWonT2 := w.t2, winnerId := MatchWinner(w, m.team1Id, m.team2Id))
  }

  /** A match whose counts and winner are those its stored games give. */
  predicate Consistent(m: KOMatch)
  {
    Wins(m.gamesWonT1, m.gamesWonT2) == Count(Games(m))
    && m.winnerId == MatchWinner(Count(Games(m)), m.team1Id, m.team2Id)
  }

  /** The `forEach` over `g1`, `g2`, `g3` that increments `wins.t1` or `wins.t2`. */
  method TallyGames(gs: seq<Option<Game>>) returns (w1: nat, w2: nat)
    ensures Wins(w1, w2) == Count(gs)
  {
    w1, w2 := 0, 0;
    for i := 0 to |gs|
      invariant Wins(w1, w2) == Count(gs[..i])
    {
      assert gs[..i + 1][..i] == gs[..i];
      var g := gs[i];
      if g.Some? && g.value.t1.Some? && g.value.t2.Some? {
        if g.value.t1.value > g.value.t2.value {
          w1 := w1 + 1;
        } else if g.value.t2.value > g.value.t1.value {
          w2 := w2 + 1;
        }
      }
    }
    assert gs[..|gs|] == gs;
  }

  // ---------------------------------------------------------------------
  // The four writes, as functions of the stored record

  /** `cur[matchKey].gk = cur[matchKey].gk || {}` for the three slots. */
  function Normalise(m: KOMatch): KOMatch
  {
    m.(g1 := Some(OrElse(m.g1, EmptyGame)), g2 := Some(OrElse(m.g2, EmptyGame)), g3 := Some(OrElse(m.g3, EmptyGame)))
  }

  /** `cur[matchKey][`g${game}`] = g` */
  function WriteGame(m: KOMatch, game: KOGame, g: Game): KOMatch
  {
    if game == 1 then m.(g1 := Some(g)) else if game == 2 then m.(g2 := Some(g)) else m.(g3 := Some(g))
  }

  /** The saved match: its slots ensured, game `game` written, counts and winner recomputed. */
  function Scored(m: KOMatch, game: KOGame, t1: Option<int>, t2: Option<int>): KOMatch
  {
    Recount(WriteGame(Normalise(m), game, Game(t1, t2)))
  }

  /** Games deleted, counts zeroed, winner cleared. */
  function Wipe(f: KOMatch): KOMatch
  {
    f.(g1 := None, g2 := None, g3 := None, gamesWonT1 := 0, gamesWonT2 := 0, winnerId := None)
  }

  /**
   * A semifinal with a (truthy) winner puts it into its slot of the final;
   * when the slot's `_prev` marker names someone else, the final's games are
   * wiped first and the marker is moved to the new finalist. A semifinal
   * without a winner leaves the final as it is.
   */
  function Advance(f: KOMatch, key: KOKey, w: Option<Id>): KOMatch
  {
    if key == SF1 && Truthy(w) then
      var f' := f.(team1Id := w);
      if f'.prevT1 != f'.team1Id then Wipe(f').(prevT1 := f'.team1Id) else f'
    else if key == SF2 && Truthy(w) then
      var f' := f.(team2Id := w);
      if f'.prevT2 != f'.team2Id then Wipe(f').(prevT2 := f'.team2Id) else f'
    else f
  }

  /** Whether the save recomputes the final and the champion. */
  predicate Settles(key: KOKey, f: KOMatch)
  {
    key == Final || (Truthy(f.team1Id) && Truthy(f.team2Id))
  }

  /** The final's result recomputed, and the champion set to its winner or null. */
  function Settle(r: BracketRecord, key: KOKey): BracketRecord
  {
    if Settles(key, r.final) then
      var f := Recount(r.final);
      r.(final := f, championId := OrNull(f.winnerId))
    else r
  }

  /** `saveKOScore(matchKey, game, t1, t2)` */
  function AfterSave(r: BracketRecord, key: KOKey, game: KOGame, t1: Option<int>, t2: Option<int>): BracketRecord
  {
    var m := Scored(MatchOf(r, key), game, t1, t2);
    var r1 := WithMatch(r, key, m);
    Settle(r1.(final := Advance(r1.final, key, m.winnerId)), key)
  }

  /** The match `clearKOMatch` writes: the same teams, no games, no counts, no winner. */
  function Cleared(m: KOMatch): KOMatch
  {
    KOMatch(m.team1Id, m.team2Id, None, None, None, 0, 0, None, None, None)
  }

  /** `clearKOMatch(matchKey)` */
  function AfterClearMatch(r: BracketRecord, key: KOKey): BracketRecord
  {
    var r1 := WithMatch(r, key, Cleared(MatchOf(r, key)));
    if key == Final then r1.(championId := None) else r1
  }

  /** A seeding write merged into a match: teams set, counts zeroed, winner cleared, the rest kept. */
  function Seeded(m: KOMatch, team1Id: Option<Id>, team2Id: Option<Id>): KOMatch
  {
    m.(team1Id := team1Id, team2Id := team2Id, gamesWonT1 := 0, gamesWonT2 := 0, winnerId := None)
  }

  /** `setSeedsFromStandings({a1, a2, b1, b2})`: A1 meets B2, B1 meets A2. */
  function AfterSetSeeds(r: BracketRecord, a1: Id, a2: Id, b1: Id, b2: Id): BracketRecord
  {
    BracketRecord(Seeded(r.sf1, Some(a1), Some(b2)), Seeded(r.sf2, Some(b1), Some(a2)), Seeded(r.final, None, None), None)
  }

  /** `clearSeeds()` */
  function AfterClearSeeds(r: BracketRecord): BracketRecord
  {
    BracketRecord(Seeded(r.sf1, None, None), Seeded(r.sf2, None, None), Seeded(r.final, None, None), None)
  }

  /**
   * The part of `saveKOScore` that works on the target match: its three
   * slots ensured, game `game` written, its games counted and its winner set.
   */
  method ScoreMatch(m0: KOMatch, game: KOGame, t1: Option<int>, t2: Option<int>) returns (m: KOMatch)
    ensures m == Scored(m0, game, t1, t2)
  {
    m := m0;
    m := m.(g1 := if m.g1.Some? then m.g1 else Some(EmptyGame));
    m := m.(g2 := if m.g2.Some? then m.g2 else Some(EmptyGame));
    m := m.(g3 := if m.g3.Some? then m.g3 else Some(EmptyGame));
    if game == 1 {
      m := m.(g1 := Some(Game(t1, t2)));
    } else if game == 2 {
      m := m.(g2 := Some(Game(t1, t2)));
    } else {
      m := m.(g3 := Some(Game(t1, t2)));
    }
    var w1, w2 := TallyGames([m.g1, m.g2, m.g3]);
    m := m.(gamesWonT1 := w1, gamesWonT2 := w2);
    m := m.(winnerId := MatchWinner(Wins(w1, w2), m.team1Id, m.team2Id));
  }

  // ---------------------------------------------------------------------
  // The record as an object updated in place

  class Bracket {
    var sf1: KOMatch
    var sf2: KOMatch
    var final: KOMatch
    var championId: Option<Id>

    function Record(): BracketRecord
      reads this
    {
      BracketRecord(sf1, sf2, final, championId)
    }

    /** The record as read from the store (`EmptyRecord` when the document is missing). */
    constructor (r: BracketRecord)
      ensures Record() == r
    {
      sf1, sf2, final, championId := r.sf1, r.sf2, r.final, r.championId;
    }

    /** `cur[matchKey] = m` */
    method PutMatch(key: KOKey, m: KOMatch)
      modifies this
      ensures Record() == WithMatch(old(Record()), key, m)
    {
      match key
      case SF1 => sf1 := m;
      case SF2 => sf2 := m;
      case Final => final := m;
    }

    /** `saveKOScore(matchKey, game, t1, t2)` on the record as read. */
    method SaveKOScore(key: KOKey, game: KOGame, t1: Option<int>, t2: Option<int>)
      modifies this
      ensures Record() == AfterSave(old(Record()), key, game, t1, t2)
    {
      var m := ScoreMatch(MatchOf(Record(), key), game, t1, t2);
      PutMatch(key, m);
      AdvanceFinal(key, m.winnerId);
      SettleFinal(key);
    }

    /** Propagation of a semifinal winner into the final. */
    method AdvanceFinal(key: KOKey, w: Option<Id>)
      modifies this
      ensures Record() == old(Record()).(final := Advance(old(final), key, w))
    {
      if key == SF1 && Truthy(w) {
        final := final.(team1Id := w);
        if final.prevT1 != final.team1Id {
          final := final.(g1 := None, g2 := None, g3 := None);
          final := final.(gamesWonT1 := 0, gamesWonT2 := 0, winnerId := None);
          final := final.(prevT1 := final.team1Id);
        }
      }
      if key == SF2 && Truthy(w) {
        final := final.(team2Id := w);
        if final.prevT2 != final.team2Id {
          final := final.(g1 := None, g2 := None, g3 := None);
          final := final.(gamesWonT1 := 0, gamesWonT2 := 0, winnerId := None);
          final := final.(prevT2 := final.team2Id);
        }
      }
    }

    /** The final's recount and the champion, when the final is the target or holds both teams. */
    method SettleFinal(key: KOKey)
      modifies this
      ensures Record() == Settle(old(Record()), key)
    {
      if key == Final || (Truthy(final.team1Id) && Truthy(final.team2Id)) {
        var f1, f2 := TallyGames([final.g1, final.g2, final.g3]);
        final := final.(gamesWonT1 := f1, gamesWonT2 := f2);
        final := final.(winnerId := MatchWinner(Wins(f1, f2), final.team1Id, final.team2Id));
        championId := OrNull(final.winnerId);
      }
    }

    method ClearKOMatch(key: KOKey)
      modifies this
      ensures Record() == AfterClearMatch(old(Record()), key)
    {
      var m := MatchOf(Record(), key);
      PutMatch(key, KOMatch(m.team1Id, m.team2Id, None, None, None, 0, 0, None, None, None));
      if key == Final {
        championId := None;
      }
    }

    method SetSeedsFromStandings(a1: Id, a2: Id, b1: Id, b2: Id)
      modifies this
      ensures Record() == AfterSetSeeds(old(Record()), a1, a2, b1, b2)
    {
      sf1 := sf1.(team1Id := Some(a1), team2Id := Some(b2), gamesWonT1 := 0, gamesWonT2 := 0, winnerId := None);
      sf2 := sf2.(team1Id := Some(b1), team2Id := Some(a2), gamesWonT1 := 0, gamesWonT2 := 0, winnerId := None);
      final := final.(team1Id := None, team2Id := None, gamesWonT1 := 0, gamesWonT2 := 0, winnerId := None);
      championId := None;
    }

    method ClearSeeds()
      modifies this
      ensures Record() == AfterClearSeeds(old(Record()))
    {
      sf1 := sf1.(team1Id := None, team2Id := None, gamesWonT1 := 0, gamesWonT2 := 0, winnerId := None);
      sf2 := sf2.(team1Id := None, team2Id := None, gamesWonT1 := 0, gamesWonT2 := 0, winnerId := None);
      final := final.(team1Id := None, team2Id := None, gamesWonT1 := 0, gamesWonT2 := 0, winnerId := None);
      championId := None;
    }
  }

  // ---------------------------------------------------------------------
  // Counting

  /** Each game counts for at most one side, so the two counts add up to at most the number of slots. */
  lemma {:induction false} CountBound(gs: seq<Option<Game>>)
    ensures Count(gs).t1 + Count(gs).t2 <= |gs|
  {
    if gs != [] {
      CountBound(gs[..|gs| - 1]);
    }
  }

  /** A consistent match has won at most three games in all, and its winner is the side with more. */
  lemma ConsistentWinner(m: KOMatch)
    requires Consistent(m)
    ensures m.gamesWonT1 + m.gamesWonT2 <= 3
    ensures m.gamesWonT1 > m.gamesWonT2 ==> m.winnerId == m.team1Id
    ensures m.gamesWonT2 > m.gamesWonT1 ==> m.winnerId == m.team2Id
    ensures m.gamesWonT1 == m.gamesWonT2 ==> m.winnerId.None?
  {
    CountBound(Games(m));
  }

  lemma RecountFacts(m: KOMatch)
    ensures Consistent(Recount(m))
    ensures Games(Recount(m)) == Games(m)
    ensures Recount(m).team1Id == m.team1Id && Recount(m).team2Id == m.team2Id
    ensures Recount(m).prevT1 == m.prevT1 && Recount(m).prevT2 == m.prevT2
    ensures Consistent(m) ==> Recount(m) == m
  {
  }

  /** What one slot adds to the tally. */
  function Point(g: Option<Game>): Wins
  {
    match GameWinner(g)
    case Team1 => Wins(1, 0)
    case Team2 => Wins(0, 1)
    case Neither => Wins(0, 0)
  }

  /** The tally of two slots, slot by slot. */
  lemma CountTwo(a: Option<Game>, b: Option<Game>)
    ensures Count([a, b]) == Wins(Point(a).t1 + Point(b).t1, Point(a).t2 + Point(b).t2)
  {
    assert [a][..0] == [];
    assert Count([a]) == Point(a);
    assert [a, b][..1] == [a];
  }

  /** The tally of a match's three slots, slot by slot. */
  lemma CountThree(m: KOMatch)
    ensures Count(Games(m)) == Wins(Point(m.g1).t1 + Point(m.g2).t1 + Point(m.g3).t1,
                                    Point(m.g1).t2 + Point(m.g2).t2 + Point(m.g3).t2)
  {
    CountTwo(m.g1, m.g2);
    assert Games(m)[..2] == [m.g1, m.g2];
  }

  /** Wiped slots count for nobody. */
  lemma NoGamesNoWins(m: KOMatch)
    requires m.g1.None? && m.g2.None? && m.g3.None?
    ensures Count(Games(m)) == Wins(0, 0)
  {
    CountThree(m);
  }

  // ---------------------------------------------------------------------
  // saveKOScore

  /**
   * The saved match agrees with its games, keeps its teams and markers, and
   * saving the same game into it again changes nothing.
   */
  lemma ScoredFacts(m: KOMatch, game: KOGame, t1: Option<int>, t2: Option<int>)
    ensures var s := Scored(m, game, t1, t2);
            && Consistent(s)
            && s.team1Id == m.team1Id && s.team2Id == m.team2Id && s.prevT1 == m.prevT1 && s.prevT2 == m.prevT2
            && Scored(s, game, t1, t2) == s
  {
    var s := Scored(m, game, t1, t2);
    RecountFacts(WriteGame(Normalise(m), game, Game(t1, t2)));
    assert WriteGame(Normalise(s), game, Game(t1, t2)) == s;
    RecountFacts(s);
  }

  /** The final is left as it is when nothing is pushed, or when the slot and its marker already hold the winner. */
  lemma AdvanceFixed(f: KOMatch, key: KOKey, w: Option<Id>)
    requires key == Final || !Truthy(w) || (FinalSlot(f, key) == w && PrevMarker(f, key) == w)
    ensures Advance(f, key, w) == f
  {
  }

  /**
   * Propagation keeps a final that agrees with its games and markers in
   * agreement, and leaves the pushed winner in both the slot and its marker.
   */
  lemma AdvanceFacts(f: KOMatch, key: KOKey, w: Option<Id>)
    ensures Consistent(f) && Linked(f) ==> Consistent(Advance(f, key, w)) && Linked(Advance(f, key, w))
    ensures key != Final && Truthy(w) ==> FinalSlot(Advance(f, key, w), key) == w && PrevMarker(Advance(f, key, w), key) == w
  {
    var a := Advance(f, key, w);
    if key != Final && Truthy(w) && PrevMarker(f, key) != w {
      NoGamesNoWins(a);
    }
  }

  /**
   * Settling touches only the final's counts and winner and the champion,
   * leaves a final that agrees with its games in agreement, and settling
   * twice is settling once.
   */
  lemma SettleFacts(r: BracketRecord, key: KOKey)
    ensures var r' := Settle(r, key);
            && r'.sf1 == r.sf1 && r'.sf2 == r.sf2
            && Games(r'.final) == Games(r.final)
            && r'.final.team1Id == r.final.team1Id && r'.final.team2Id == r.final.team2Id
            && r'.final.prevT1 == r.final.prevT1 && r'.final.prevT2 == r.final.prevT2
            && (Consistent(r.final) || Settles(key, r.final) ==> Consistent(r'.final))
            && Settle(r', key) == r'
  {
    RecountFacts(r.final);
    RecountFacts(Recount(r.final));
  }

  /**
   * The saved match holds the written game in its slot, the other two slots
   * as they were (an absent one becomes an empty game), the same two teams,
   * and counts and winner recomputed from its games. The other semifinal is
   * not touched.
   */
  lemma SaveWritesOneGame(r: BracketRecord, key: KOKey, game: KOGame, t1: Option<int>, t2: Option<int>)
    ensures var m0, m := MatchOf(r, key), MatchOf(AfterSave(r, key, game, t1, t2), key);
            && Games(m)[game - 1] == Some(Game(t1, t2))
            && (forall i :: 0 <= i < 3 && i != game - 1 ==> Games(m)[i] == Some(OrElse(Games(m0)[i], EmptyGame)))
            && m.team1Id == m0.team1Id && m.team2Id == m0.team2Id
            && Consistent(m)
    ensures forall k :: k != key && k != Final ==> MatchOf(AfterSave(r, key, game, t1, t2), k) == MatchOf(r, k)
  {
    var m := Scored(MatchOf(r, key), game, t1, t2);
    RecountFacts(WriteGame(Normalise(MatchOf(r, key)), game, Game(t1, t2)));
    RecountFacts(m);
  }

  /** Saving the same game twice gives the same record as saving it once. */
  lemma SaveIdempotent(r: BracketRecord, key: KOKey, game: KOGame, t1: Option<int>, t2: Option<int>)
    ensures AfterSave(AfterSave(r, key, game, t1, t2), key, game, t1, t2) == AfterSave(r, key, game, t1, t2)
  {
    var m := Scored(MatchOf(r, key), game, t1, t2);
    ScoredFacts(MatchOf(r, key), game, t1, t2);
    var r1 := WithMatch(r, key, m);
    var a := Advance(r1.final, key, m.winnerId);
    AdvanceFacts(r1.final, key, m.winnerId);
    if key == Final {
      AdvanceFixed(r1.final, key, m.winnerId);
    }
    var r' := Settle(r1.(final := a), key);
    SettleFacts(r1.(final := a), key);
    assert MatchOf(r', key) == m;
    assert WithMatch(r', key, m) == r';
    AdvanceFixed(r'.final, key, m.winnerId);
  }

  /** The slot of the final a semifinal feeds, and its `_prev` marker. */
  function FinalSlot(f: KOMatch, key: KOKey): Option<Id>
  {
    if key == SF1 then f.team1Id else f.team2Id
  }

  function PrevMarker(f: KOMatch, key: KOKey): Option<Id>
  {
    if key == SF1 then f.prevT1 else f.prevT2
  }

  /** The slot of the final the other semifinal feeds, and its marker. */
  function OtherSlot(f: KOMatch, key: KOKey): (Option<Id>, Option<Id>)
  {
    if key == SF1 then (f.team2Id, f.prevT2) else (f.team1Id, f.prevT1)
  }

  /**
   * A semifinal that now has a winner puts it into its slot of the final and
   * records it in the slot's marker; when the marker named someone else, the
   * final's games are deleted and its counts and winner reset, and otherwise
   * its games are kept. A semifinal without a winner leaves the final's
   * teams, games and markers alone.
   */
  lemma SemifinalAdvances(r: BracketRecord, key: KOKey, game: KOGame, t1: Option<int>, t2: Option<int>)
    requires key != Final
    ensures var r' := AfterSave(r, key, game, t1, t2);
            var w, f0, f := MatchOf(r', key).winnerId, r.final, r'.final;
            && (Truthy(w) ==> FinalSlot(f, key) == w && PrevMarker(f, key) == w && OtherSlot(f, key) == OtherSlot(f0, key))
            && (Truthy(w) && PrevMarker(f0, key) != w ==>
                  Games(f) == [None, None, None] && f.gamesWonT1 == 0 && f.gamesWonT2 == 0 && f.winnerId.None?)
            && (Truthy(w) && PrevMarker(f0, key) == w ==> Games(f) == Games(f0))
            && (!Truthy(w) ==>
                  f.team1Id == f0.team1Id && f.team2Id == f0.team2Id && Games(f) == Games(f0)
                  && f.prevT1 == f0.prevT1 && f.prevT2 == f0.prevT2)
  {
    var m := Scored(MatchOf(r, key), game, t1, t2);
    var a := Advance(r.final, key, m.winnerId);
    RecountFacts(a);
    if Truthy(m.winnerId) && PrevMarker(r.final, key) != m.winnerId {
      NoGamesNoWins(a);
    }
  }

  /**
   * When the final is the target or holds two teams, its counts and winner
   * are recomputed and the champion is its winner (null when it has none);
   * otherwise the champion is left as stored.
   */
  lemma ChampionIsFinalWinner(r: BracketRecord, key: KOKey, game: KOGame, t1: Option<int>, t2: Option<int>)
    ensures var r' := AfterSave(r, key, game, t1, t2);
            Settles(key, r'.final) ==> Consistent(r'.final) && r'.championId == OrNull(r'.final.winnerId)
    ensures var r' := AfterSave(r, key, game, t1, t2);
            !Settles(key, r'.final) ==> r'.championId == r.championId
  {
    var m := Scored(MatchOf(r, key), game, t1, t2);
    RecountFacts(Advance(WithMatch(r, key, m).final, key, m.winnerId));
  }

  // ---------------------------------------------------------------------
  // An invariant of saves and clears

  /** Every match's counts and winner are those of its stored games. */
  predicate Tallied(r: BracketRecord)
  {
    Consistent(r.sf1) && Consistent(r.sf2) && Consistent(r.final)
  }

  /** Each slot of the final is recorded in its marker, unless the marker is unset. */
  predicate Linked(f: KOMatch)
  {
    (f.prevT1.None? || f.prevT1 == f.team1Id) && (f.prevT2.None? || f.prevT2 == f.team2Id)
  }

  predicate Coherent(r: BracketRecord)
  {
    Tallied(r) && Linked(r.final)
  }

  lemma EmptyCoherent()
    ensures Coherent(EmptyRecord)
  {
    NoGamesNoWins(EmptyMatch);
  }

  lemma SavePreservesCoherent(r: BracketRecord, key: KOKey, game: KOGame, t1: Option<int>, t2: Option<int>)
    requires Coherent(r)
    ensures Coherent(AfterSave(r, key, game, t1, t2))
  {
    var m := Scored(MatchOf(r, key), game, t1, t2);
    ScoredFacts(MatchOf(r, key), game, t1, t2);
    var r1 := WithMatch(r, key, m);
    assert Consistent(r1.final) && Linked(r1.final);
    AdvanceFacts(r1.final, key, m.winnerId);
    SettleFacts(r1.(final := Advance(r1.final, key, m.winnerId)), key);
  }

  lemma ClearMatchPreservesCoherent(r: BracketRecord, key: KOKey)
    requires Coherent(r)
    ensures Coherent(AfterClearMatch(r, key))
  {
    NoGamesNoWins(Cleared(MatchOf(r, key)));
  }

  // ---------------------------------------------------------------------
  // clearKOMatch, setSeedsFromStandings, clearSeeds

  /**
   * The cleared match keeps its teams and loses its games, counts, winner
   * and markers. Clearing the final clears the champion; clearing a
   * semifinal leaves the final and the champion as stored.
   */
  lemma ClearMatchResets(r: BracketRecord, key: KOKey)
    ensures var m0, m := MatchOf(r, key), MatchOf(AfterClearMatch(r, key), key);
            && m.team1Id == m0.team1Id && m.team2Id == m0.team2Id
            && Games(m) == [None, None, None] && m.gamesWonT1 == 0 && m.gamesWonT2 == 0 && m.winnerId.None?
            && m.prevT1.None? && m.prevT2.None?
            && Consistent(m)
    ensures forall k :: k != key ==> MatchOf(AfterClearMatch(r, key), k) == MatchOf(r, k)
    ensures AfterClearMatch(r, key).championId == (if key == Final then None else r.championId)
  {
    NoGamesNoWins(Cleared(MatchOf(r, key)));
  }

  /**
   * Seeding pairs A1 with B2 and B1 with A2, resets every count and winner,
   * empties the final's slots and the champion, and keeps every stored game
   * slot and marker.
   */
  lemma SeedsCross(r: BracketRecord, a1: Id, a2: Id, b1: Id, b2: Id)
    ensures var r' := AfterSetSeeds(r, a1, a2, b1, b2);
            && r'.sf1.team1Id == Some(a1) && r'.sf1.team2Id == Some(b2)
            && r'.sf2.team1Id == Some(b1) && r'.sf2.team2Id == Some(a2)
            && r'.final.team1Id.None? && r'.final.team2Id.None? && r'.championId.None?
    ensures forall k :: var m0, m := MatchOf(r, k), MatchOf(AfterSetSeeds(r, a1, a2, b1, b2), k);
              && m.gamesWonT1 == 0 && m.gamesWonT2 == 0 && m.winnerId.None?
              && Games(m) == Games(m0) && m.prevT1 == m0.prevT1 && m.prevT2 == m0.prevT2
  {
  }

  /** Clearing the seeds empties every team slot, count, winner and the champion, and keeps games and markers. */
  lemma ClearSeedsResets(r: BracketRecord)
    ensures AfterClearSeeds(r).championId.None?
    ensures forall k :: var m0, m := MatchOf(r, k), MatchOf(AfterClearSeeds(r), k);
              && m.team1Id.None? && m.team2Id.None?
              && m.gamesWonT1 == 0 && m.gamesWonT2 == 0 && m.winnerId.None?
              && Games(m) == Games(m0) && m.prevT1 == m0.prevT1 && m.prevT2 == m0.prevT2
  {
  }

  /** No stored game slot and no marker in a match. */
  predicate Bare(m: KOMatch)
  {
    m.g1.None? && m.g2.None? && m.g3.None? && m.prevT1.None? && m.prevT2.None?
  }

  /** After clearing the seeds the record is the empty one exactly when no match holds games or markers. */
  lemma ClearSeedsEmptyIff(r: BracketRecord)
    ensures AfterClearSeeds(r) == EmptyRecord <==> Bare(r.sf1) && Bare(r.sf2) && Bare(r.final)
  {
    if AfterClearSeeds(r) == EmptyRecord {
      assert AfterClearSeeds(r).sf1 == EmptyMatch && AfterClearSeeds(r).sf2 == EmptyMatch;
      assert AfterClearSeeds(r).final == EmptyMatch;
    }
  }

  /** Seeding over a played semifinal keeps its games but zeroes its counts, so it is no longer tallied. */
  lemma SeedingLeavesStaleGames()
    ensures var sf := EmptyMatch.(g1 := Some(Game(Some(11), Some(5))), gamesWonT1 := 1);
            var r := EmptyRecord.(sf1 := sf);
            Tallied(r) && !Tallied(AfterSetSeeds(r, "A1", "A2", "B1", "B2"))
  {
    var sf := EmptyMatch.(g1 := Some(Game(Some(11), Some(5))), gamesWonT1 := 1);
    CountThree(sf);
    NoGamesNoWins(EmptyMatch);
  }

  // ---------------------------------------------------------------------
  // Scenarios from a freshly seeded bracket

  /** The bracket right after seeding an empty record with A1, A2, B1, B2. */
  function Seeded0(): BracketRecord
  {
    AfterSetSeeds(EmptyRecord, "A1", "A2", "B1", "B2")
  }

  /** The bracket once A1 has won game 1 of the first semifinal and so reached the final. */
  function Advanced1(): BracketRecord
  {
    AfterSave(Seeded0(), SF1, 1, Some(11), Some(5))
  }

  /** That record, spelt out. */
  lemma Advanced1Value()
    ensures Advanced1() == BracketRecord(
              KOMatch(Some("A1"), Some("B2"), Some(Game(Some(11), Some(5))), Some(EmptyGame), Some(EmptyGame),
                      1, 0, Some("A1"), None, None),
              EmptyMatch.(team1Id := Some("B1"), team2Id := Some("A2")),
              EmptyMatch.(team1Id := Some("A1"), prevT1 := Some("A1")),
              None)
  {
    CountThree(Scored(Seeded0().sf1, 1, Some(11), Some(5)));
  }

  /** The bracket once B2 has levelled the first semifinal by winning game 2. */
  function Levelled(): BracketRecord
  {
    AfterSave(Advanced1(), SF1, 2, Some(7), Some(11))
  }

  /** That record, spelt out: no winner at 1-1, and the final still holds A1. */
  lemma LevelledValue()
    ensures Levelled() == BracketRecord(
              KOMatch(Some("A1"), Some("B2"), Some(Game(Some(11), Some(5))), Some(Game(Some(7), Some(11))), Some(EmptyGame),
                      1, 1, None, None, None),
              EmptyMatch.(team1Id := Some("B1"), team2Id := Some("A2")),
              EmptyMatch.(team1Id := Some("A1"), prevT1 := Some("A1")),
              None)
  {
    Advanced1Value();
    CountThree(Scored(Advanced1().sf1, 2, Some(7), Some(11)));
  }

  /**
   * A semifinal played to a deciding third game: after game 1 the leader is
   * already the winner and in the final, at 1-1 there is no winner but the
   * final keeps the earlier leader, and game 3 decides it 2-1.
   */
  lemma DecidingGame()
    ensures var r1 := AfterSave(Seeded0(), SF1, 1, Some(11), Some(5));
            && r1.sf1.winnerId == Some("A1") && r1.final.team1Id == Some("A1")
    ensures var r1 := AfterSave(Seeded0(), SF1, 1, Some(11), Some(5));
            var r2 := AfterSave(r1, SF1, 2, Some(7), Some(11));
            && r2.sf1.gamesWonT1 == 1 && r2.sf1.gamesWonT2 == 1 && r2.sf1.winnerId.None?
            && r2.final.team1Id == Some("A1")
    ensures var r1 := AfterSave(Seeded0(), SF1, 1, Some(11), Some(5));
            var r2 := AfterSave(r1, SF1, 2, Some(7), Some(11));
            var r3 := AfterSave(r2, SF1, 3, Some(11), Some(9));
            && r3.sf1.gamesWonT1 == 2 && r3.sf1.gamesWonT2 == 1 && r3.sf1.winnerId == Some("A1")
            && r3.final.team1Id == Some("A1") && r3.final.prevT1 == Some("A1")
  {
    Advanced1Value();
    LevelledValue();
    CountThree(Scored(Levelled().sf1, 3, Some(11), Some(9)));
  }

  /**
   * The champion can outlive the final it came from: a final played while
   * only one finalist is known names a champion, and a later change of that
   * finalist wipes the final's games and winner but, with the other slot
   * still empty, leaves the champion as stored.
   */
  lemma StaleChampion()
    ensures var r2 := AfterSave(Advanced1(), Final, 1, Some(11), Some(3));
            var r3 := AfterSave(r2, SF1, 1, Some(3), Some(11));
            && r2.championId == Some("A1")
            && r3.final.team1Id == Some("B2") && r3.final.winnerId.None?
            && r3.championId == Some("A1")
  {
    var r1 := Advanced1();
    Advanced1Value();
    CountThree(Scored(r1.final, 1, Some(11), Some(3)));
    var r2 := AfterSave(r1, Final, 1, Some(11), Some(3));
    CountThree(Scored(r2.sf1, 1, Some(3), Some(11)));
  }

  /**
   * A save is not refused when the match has no teams, as after the seeds
   * are cleared: the game is stored and counted, and the winner is the
   * empty slot, so nothing reaches the final.
   */
  lemma SaveWithoutTeams()
    ensures var r := AfterSave(AfterClearSeeds(EmptyRecord), SF1, 1, Some(11), Some(5));
            && r.sf1.g1 == Some(Game(Some(11), Some(5)))
            && r.sf1.gamesWonT1 == 1 && r.sf1.gamesWonT2 == 0 && r.sf1.winnerId.None?
            && r.final == EmptyMatch && r.championId.None?
  {
    CountThree(Scored(EmptyMatch, 1, Some(11), Some(5)));
  }
}

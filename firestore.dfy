/**
 * The round-robin match document and the two score writes of
 * src/lib/firestore.ts. The store call itself (updateDoc) is left out; what
 * is modelled is the record each write hands to it and the match document
 * that results from merging that record into the stored one.
 */
module Firestore {
  import opened Common

  const StatusFinal: string := "final"
  const StatusScheduled: string := "scheduled"

  /**
   * A document of the `matches` collection, restricted to the fields the
   * core reads. Absent fields are None.
   */
  datatype MatchDoc = MatchDoc(
    id: Id,
    team1Id: Option<Id>,
    team2Id: Option<Id>,
    score1: Option<int>,
    score2: Option<int>,
    winnerId: Option<Id>,
    status: Option<string>,
    court: Option<string>)

  /** The record a score write merges into a match document (`updatedAt` left out). */
  datatype ScorePatch = ScorePatch(
    score1: Option<int>,
    score2: Option<int>,
    winnerId: Option<Id>,
    status: string)

  predicate IsFinal(m: MatchDoc)
  {
    m.status == Some(StatusFinal)
  }

  /** The winner `updateScore` stores: the strictly higher scorer's team, or null on a tie. */
  function ScoreWinner(s1: int, s2: int, team1Id: Option<Id>, team2Id: Option<Id>): (w: Option<Id>)
    ensures s1 > s2 ==> w == team1Id
    ensures s2 > s1 ==> w == team2Id
    ensures s1 == s2 ==> w == None
  {
    if s1 > s2 then team1Id else if s2 > s1 then team2Id else None
  }

  /** The record `updateScore` writes: both scores, the derived winner, status final. */
  function UpdateScore(s1: int, s2: int, team1Id: Option<Id>, team2Id: Option<Id>): (p: ScorePatch)
    ensures p.status == StatusFinal
    ensures p.score1 == Some(s1) && p.score2 == Some(s2)
    ensures p.winnerId.Some? ==> p.winnerId == team1Id || p.winnerId == team2Id
    ensures p.winnerId.Some? ==> s1 != s2
    ensures p.winnerId == ScoreWinner(s1, s2, team1Id, team2Id)
  {
    ScorePatch(Some(s1), Some(s2), ScoreWinner(s1, s2, team1Id, team2Id), StatusFinal)
  }

  /** The record `clearScore` writes: no scores, no winner, status scheduled. */
  function ClearScore(): (p: ScorePatch)
    ensures p.status == StatusScheduled && p.status != StatusFinal
    ensures p.score1.None? && p.score2.None? && p.winnerId.None?
  {
    ScorePatch(None, None, None, StatusScheduled)
  }

  /** updateDoc: the patch's fields replace the stored ones; every other field is kept. */
  function ApplyPatch(m: MatchDoc, p: ScorePatch): (r: MatchDoc)
    ensures r.id == m.id && r.team1Id == m.team1Id && r.team2Id == m.team2Id && r.court == m.court
    ensures r.score1 == p.score1 && r.score2 == p.score2 && r.winnerId == p.winnerId
    ensures r.status == Some(p.status)
  {
    m.(score1 := p.score1, score2 := p.score2, winnerId := p.winnerId, status := Some(p.status))
  }

  /**
   * Clearing a scored match undoes everything the score write did to it:
   * the result no longer depends on the scores that were written, and it is
   * no longer final.
   */
  lemma ClearUndoesUpdate(m: MatchDoc, s1: int, s2: int, t1: int, t2: int)
    ensures ApplyPatch(ApplyPatch(m, UpdateScore(s1, s2, m.team1Id, m.team2Id)), ClearScore())
         == ApplyPatch(ApplyPatch(m, UpdateScore(t1, t2, m.team1Id, m.team2Id)), ClearScore())
    ensures !IsFinal(ApplyPatch(ApplyPatch(m, UpdateScore(s1, s2, m.team1Id, m.team2Id)), ClearScore()))
  {
  }
}

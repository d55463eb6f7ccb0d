/**
 * The round-robin score editor of src/components/ScoreEditor.tsx: the
 * validity of the two typed scores and the guard in front of the save.
 * The parsing of the text fields by `Number()` is left out: a field is
 * either blank or holds the number it parses to.
 */
module ScoreEditor {
  import opened Common
  import opened Firestore

  const MaxScore: int := 21

  /** A JavaScript number as far as the validity check can tell numbers apart. */
  datatype JsNumber = NaN | Infinite(negative: bool) | Finite(value: real)

  /** The content of one score field. */
  datatype Field = Blank | Typed(parsed: JsNumber)

  /** `s === '' ? NaN : Number(s)` */
  function ToNumber(f: Field): (n: JsNumber)
    ensures f.Blank? ==> n.NaN?
  {
    match f
    case Blank => NaN
    case Typed(x) => x
  }

  /** `Number.isInteger(n)` */
  predicate IsInteger(n: JsNumber)
  {
    n.Finite? && n.value.Floor as real == n.value
  }

  /** The number a JavaScript integer stands for. */
  function FromInt(k: int): JsNumber
  {
    Finite(k as real)
  }

  /** One of the scores a game can end with: an integer from 0 to 21. */
  ghost predicate IsScore(n: JsNumber)
  {
    exists k: int :: 0 <= k <= MaxScore && n == FromInt(k)
  }

  /**
   * `valid`: both numbers are integers and lie in the closed range [0, 21].
   * Equivalently, each of them is one of the 22 scores 0, 1, ..., 21.
   */
  function Valid(n1: JsNumber, n2: JsNumber): (ok: bool)
    ensures ok <==> IsScore(n1) && IsScore(n2)
  {
    ScoreAsInt(n1);
    ScoreAsInt(n2);
    IsInteger(n1) && IsInteger(n2) && n1.value >= 0.0 && n2.value >= 0.0
      && n1.value <= MaxScore as real && n2.value <= MaxScore as real
  }

  lemma ScoreAsInt(n: JsNumber)
    ensures IsScore(n) <==> IsInteger(n) && 0.0 <= n.value <= MaxScore as real
  {
    if IsInteger(n) && 0.0 <= n.value <= MaxScore as real {
      assert n == FromInt(n.value.Floor);
    }
  }

  /** The boundary cases: 0 and 21 are accepted; -1, 22, 10.5, infinity and a blank field are not. */
  lemma ValidBoundaries()
    ensures Valid(FromInt(0), FromInt(MaxScore))
    ensures Valid(FromInt(MaxScore), FromInt(0))
    ensures !Valid(FromInt(-1), FromInt(0)) && !Valid(FromInt(0), FromInt(-1))
    ensures !Valid(FromInt(MaxScore + 1), FromInt(0)) && !Valid(FromInt(0), FromInt(MaxScore + 1))
    ensures !Valid(Finite(10.5), FromInt(0)) && !Valid(FromInt(0), Finite(10.5))
    ensures !Valid(Infinite(false), FromInt(0)) && !Valid(FromInt(0), Infinite(false))
    ensures !Valid(Infinite(true), FromInt(0)) && !Valid(FromInt(0), Infinite(true))
    ensures forall n :: !Valid(ToNumber(Blank), n) && !Valid(n, ToNumber(Blank))
  {
  }

  /** The arguments `onSave` passes to `updateScore`. */
  datatype ScoreCall = ScoreCall(matchId: Id, s1: int, s2: int, team1Id: Option<Id>, team2Id: Option<Id>)

  /**
   * `onSave`: nothing when the pair is not valid; otherwise exactly the call
   * `updateScore(m.id, n1, n2, m.team1Id, m.team2Id)`.
   */
  function OnSave(m: MatchDoc, f1: Field, f2: Field): (call: Option<ScoreCall>)
    ensures call.None? <==> !Valid(ToNumber(f1), ToNumber(f2))
    ensures call.Some? ==>
              && call.value.matchId == m.id
              && call.value.team1Id == m.team1Id && call.value.team2Id == m.team2Id
              && ToNumber(f1) == FromInt(call.value.s1) && ToNumber(f2) == FromInt(call.value.s2)
              && 0 <= call.value.s1 <= MaxScore && 0 <= call.value.s2 <= MaxScore
  {
    var n1, n2 := ToNumber(f1), ToNumber(f2);
    if !Valid(n1, n2) then None
    else Some(ScoreCall(m.id, n1.value.Floor, n2.value.Floor, m.team1Id, m.team2Id))
  }
}

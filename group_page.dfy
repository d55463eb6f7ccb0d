/**
 * The two pure helpers of the group page, src/pages/GroupPage.tsx: the CSS
 * class that colours a match's court, and the winner highlight of the two
 * team cells.
 */
module GroupPage {
  import opened Common
  import opened Firestore

  /** The court numbers that have a colour, in the order they are tested. */
  const CourtDigits: seq<char> := ['1', '2', '3', '4']

  /** `'court-' + d` */
  function CourtClassOf(d: char): (cls: string)
    ensures |cls| == 7 && cls[..6] == "court-" && cls[6] == d
  {
    "court-" + [d]
  }

  /**
   * `courtClass(c)`: '' for a missing or empty court, otherwise the class of
   * the first of 1, 2, 3, 4 that occurs in the text, and '' when none does.
   */
  function CourtClass(c: Option<string>): (cls: string)
    ensures cls == "" || (|cls| == 7 && cls[..6] == "court-" && cls[6] in CourtDigits && c.Some? && cls[6] in c.value)
    ensures !Truthy(c) ==> cls == ""
  {
    if !Truthy(c) then ""
    else if '1' in c.value then CourtClassOf('1')
    else if '2' in c.value then CourtClassOf('2')
    else if '3' in c.value then CourtClassOf('3')
    else if '4' in c.value then CourtClassOf('4')
    else ""
  }

  /** No court, or an empty one, has no class. */
  lemma CourtClassAbsent(c: Option<string>)
    ensures !Truthy(c) ==> CourtClass(c) == ""
    ensures CourtClass(None) == "" && CourtClass(Some("")) == ""
  {
  }

  /**
   * A court gets the class of digit `CourtDigits[k]` exactly when the text
   * contains that digit and none of the digits tested before it.
   */
  lemma CourtClassFirstDigit(c: Option<string>, k: nat)
    requires k < |CourtDigits|
    ensures CourtClass(c) == CourtClassOf(CourtDigits[k])
            <==> Truthy(c) && CourtDigits[k] in c.value && forall j :: 0 <= j < k ==> CourtDigits[j] !in c.value
  {
    assert CourtDigits[0] == '1' && CourtDigits[1] == '2' && CourtDigits[2] == '3' && CourtDigits[3] == '4';
    var cls := CourtClass(c);
    if cls == CourtClassOf(CourtDigits[k]) {
      assert cls[6] == CourtDigits[k];
    }
  }

  /** The class is empty exactly when there is no court text or it holds none of the four digits. */
  lemma CourtClassEmptyIff(c: Option<string>)
    ensures CourtClass(c) == "" <==> !Truthy(c) || forall j :: 0 <= j < |CourtDigits| ==> CourtDigits[j] !in c.value
  {
    if Truthy(c) && CourtClass(c) == "" {
      forall j | 0 <= j < |CourtDigits| ensures CourtDigits[j] !in c.value {
        assert CourtDigits[j] == '1' || CourtDigits[j] == '2' || CourtDigits[j] == '3' || CourtDigits[j] == '4';
      }
    }
    if Truthy(c) && forall j :: 0 <= j < |CourtDigits| ==> CourtDigits[j] !in c.value {
      assert CourtDigits[0] == '1' && CourtDigits[1] == '2' && CourtDigits[2] == '3' && CourtDigits[3] == '4';
    }
  }

  /** The first digit tested wins: "Court 12" is court 1, and so is "Court 21". */
  lemma CourtClassExamples()
    ensures CourtClass(Some("Court 12")) == "court-1"
    ensures CourtClass(Some("Court 21")) == "court-1"
    ensures CourtClass(Some("Court 3")) == "court-3"
    ensures CourtClass(Some("Main court")) == ""
  {
    assert "Court 12"[7] == '2' && "Court 12"[6] == '1';
    assert "Court 21"[7] == '1';
    assert "Court 3"[6] == '3';
    assert forall i :: 0 <= i < |"Main court"| ==> "Main court"[i] !in CourtDigits;
  }

  /** `m.winnerId && m.winnerId === m.team1Id` */
  predicate Win1(m: MatchDoc)
  {
    Truthy(m.winnerId) && m.winnerId == m.team1Id
  }

  /** `m.winnerId && m.winnerId === m.team2Id` */
  predicate Win2(m: MatchDoc)
  {
    Truthy(m.winnerId) && m.winnerId == m.team2Id
  }

  /** With two different teams at most one cell is highlighted. */
  lemma NeverBothWin(m: MatchDoc)
    requires m.team1Id != m.team2Id
    ensures !(Win1(m) && Win2(m))
  {
  }

  /**
   * The highlight after a score is saved: the strictly higher scorer's cell
   * is highlighted when its team id is truthy, and on a tie neither is.
   * After the score is cleared, neither is.
   */
  lemma HighlightAfterSave(m: MatchDoc, s1: int, s2: int)
    requires m.team1Id != m.team2Id
    ensures var m' := ApplyPatch(m, UpdateScore(s1, s2, m.team1Id, m.team2Id));
            && (s1 > s2 ==> (Win1(m') <==> Truthy(m.team1Id)) && !Win2(m'))
            && (s2 > s1 ==> (Win2(m') <==> Truthy(m.team2Id)) && !Win1(m'))
            && (s1 == s2 ==> !Win1(m') && !Win2(m'))
    ensures var m' := ApplyPatch(ApplyPatch(m, UpdateScore(s1, s2, m.team1Id, m.team2Id)), ClearScore());
            !Win1(m') && !Win2(m')
  {
  }
}

# Pickleball tournament scoring, modelled in Dafny

This project models the scoring engine of a pickleball tournament app. The
app has two round-robin groups, two seeded semifinals and a best-of-3 final.
It covers six parts of the app:

- **Standings.** `buildStandings` folds the final round-robin matches into
  per-team points for, points against, wins and losses. It derives each
  row's point difference, win ratio and the integer ranking key
  `wins*100000 + (diff+1000)*100 + pf`, then sorts the rows by that key,
  highest first. Both the standings page and the knockout page hold the
  same copy of this function.
- **Knockout bracket.** This is the stored record with the two semifinals,
  the final and the champion, plus its four writes:
  - `saveKOScore` writes one game, recounts games won and names the winner.
    A semifinal winner is pushed into the final. When the final's
    `_prevT1`/`_prevT2` marker names someone else, the final's games are
    wiped first. Then the final and the champion are recomputed.
  - `clearKOMatch` resets one match.
  - `setSeedsFromStandings` seeds A1 against B2 and B1 against A2.
  - `clearSeeds` clears the seeds.
- **Knockout page derivations.**
  - whether seeding is allowed;
  - the live seeds, taken from the top two rows of each group's standings;
  - the guard in front of the seeding write;
  - the teams each knockout match is shown with, and whether it is disabled;
  - whether there is anything to clear;
  - the local tally of games 1 and 2 that unlocks game 3.
- **Round-robin score editor.** A score pair is valid when both values are
  integers from 0 to 21, and a save happens only for a valid pair.
- **Match score writes.** The record `updateScore` writes holds the winner
  and status `final`. The record `clearScore` writes holds no scores and
  status `scheduled`.
- **Group page.** `courtClass` colours a match by its court, and
  `win1`/`win2` highlight the winning team's cell.

The score editor's clear button and the knockout page's "Clear Match"
button only call `clearScore` and `clearKOMatch`. Those writes are
modelled, and the buttons add nothing beyond them. The knockout page's
"Save" button is `onSaveAll`: it saves games 1, 2 and 3 in turn, through
`saveKOScore`.

There is one module per source file, plus `Common` (`common.dfy`). `Common`
holds optional values, JavaScript truthiness of ids, `??` and `|| null`.

- `Firestore` (`firestore.dfy`) models src/lib/firestore.ts.
- `ScoreEditor` (`score_editor.dfy`) models src/components/ScoreEditor.tsx.
- `Standings` (`standings.dfy`) models `buildStandings` in
  src/pages/StandingsPage.tsx and the identical copy in
  src/pages/KnockoutPage.tsx.
- `Bracket` (`bracket.dfy`) models src/lib/bracket.ts.
- `KnockoutPage` (`knockout_page.dfy`) models the rest of
  src/pages/KnockoutPage.tsx.
- `GroupPage` (`group_page.dfy`) models src/pages/GroupPage.tsx.

Different parts of the source have different shapes, and the model follows them:

- **Bracket writes.** The source mutates the record it read. Here, a
  `Bracket` class holds that record in its fields. Each method updates those
  fields step by step and is proved to end in the state given by a function
  of the old record (`AfterSave`, `AfterClearMatch`, `AfterSetSeeds`,
  `AfterClearSeeds`). The lemmas about the bracket are stated about those
  functions.
- **`buildStandings`.** The source fills a JavaScript `Map` in two `forEach`
  loops. `Standings.BuildStandings` is a method with the same two loops.
  The `Map` is a sequence of rows in the order their ids were first
  inserted. The method is proved to compute `Standings.StandingsOf`, and the
  lemmas are stated about that function.
- **Game tallies.** `saveKOScore` counts games won in a loop, modelled by
  the method `Bracket.TallyGames`. The page's local tally is the method
  `KnockoutPage.LocalWins`. Both are proved against the recursive function
  `Bracket.Count`.

Where the code and the intended design differ, the model follows the code.
Each difference below is shown by a lemma:

- **A single game can decide a match.** A match's winner is the side with
  more games won, so one game won 1–0 already names a winner and puts it
  into the final. A best-of-3 design would need two games
  (`Bracket.DecidingGame`).
- **A lost lead does not empty the final's slot.** When a semifinal's
  winner goes back to null (a second game levels it 1–1), the final keeps
  the earlier finalist in its slot (`Bracket.DecidingGame`).
- **The champion can go stale.** After a finalist changes, the final's
  winner is wiped. Unless the final's other slot is filled, the stored
  champion is kept (`Bracket.StaleChampion`).
- **Empty team slots do not block a save.** After the seeds are cleared
  every match has null team slots, and a save into one still has its game
  stored and counted (`Bracket.SaveWithoutTeams`).
- **Seeding keeps stored games.** Seeding and clearing the seeds are merge
  writes. Stored games and `_prev` markers survive, so after seeding, a
  played semifinal shows zero games won while its games are still stored
  (`Bracket.SeedingLeavesStaleGames`).
- **Clearing the seeds rarely gives an empty bracket.** It gives the empty
  record only when no match holds games or markers
  (`Bracket.ClearSeedsEmptyIff`).
- **The tie-break order holds only within bounds.** The standings page
  says wins, then point difference, then points for. The composite key
  gives that order only while points stay below 498 per team. With equal
  wins, a larger difference loses when its points-for lag exceeds 100
  times its difference lead (`Standings.CompositeOrder`,
  `Standings.DiffTieBreakLimit`).
- **Clearing a semifinal does not touch the final.** The final and the
  champion stay as stored (`Bracket.ClearMatchResets`).

## Model

| member | source | states |
|---|---|---|
| Common.OrNull | src/lib/bracket.ts:98 | `x \|\| null` keeps a truthy id unchanged and turns every falsy one (null, undefined, `""`) into null |
| Common.OrElse | src/pages/StandingsPage.tsx:90-93 | `x ?? d` is the stored value when present and `d` when null or undefined |
| Common.Coalesce | src/pages/KnockoutPage.tsx:217-220 | `x ?? y` on two optional ids gives `y` only when `x` is null |
| Firestore.IsFinal | src/pages/StandingsPage.tsx:87 | the `status === 'final'` test of the standings filter and of the knockout page's result check; its effect is stated by `Standings.FoldSkips` and `KnockoutPage.LiveSeedsFromRows` |
| Firestore.ScoreWinner | src/lib/firestore.ts:48 | the winner is team 1 if `s1 > s2`, team 2 if `s2 > s1`, null on a tie |
| Firestore.UpdateScore | src/lib/firestore.ts:47-56 | the record stores both scores and status `final`; its winner is the one `ScoreWinner` derives from the scores, so a non-null winner is one of the two teams and implies unequal scores |
| Firestore.ClearScore | src/lib/firestore.ts:63-71 | the record nulls both scores and the winner and sets status `scheduled` |
| Firestore.ApplyPatch | src/lib/firestore.ts:49-55 | the written fields replace the stored ones; id, teams and court are kept |
| Firestore.ClearUndoesUpdate | src/lib/firestore.ts:47-71 | after a score write and a clear, the match no longer depends on the scores written and is not final |
| ScoreEditor.ToNumber | src/components/ScoreEditor.tsx:11-12 | a blank field is NaN |
| ScoreEditor.Valid | src/components/ScoreEditor.tsx:15 | valid iff both numbers are among the integers 0..21 |
| ScoreEditor.ScoreAsInt | src/components/ScoreEditor.tsx:15 | a number is one of 0..21 iff it is an integer in the closed range [0, 21] |
| ScoreEditor.ValidBoundaries | src/components/ScoreEditor.tsx:11-15 | 0 and 21 are accepted; -1, 22, 10.5, +∞, −∞ and a blank field are rejected, as either score |
| ScoreEditor.OnSave | src/components/ScoreEditor.tsx:17-21 | no call iff the pair is invalid; otherwise exactly `(m.id, n1, n2, m.team1Id, m.team2Id)` with both scores within 0..21 |
| Standings.Find | src/pages/StandingsPage.tsx:88 | `map.get` finds the first row with the id, and nothing when no row has it |
| Standings.WinPct | src/pages/StandingsPage.tsx:98 | the win ratio lies in [0, 1], is 0 with no decided match and 1 with wins only |
| Standings.DeriveTotal | src/pages/StandingsPage.tsx:95-99 | deriving the rows keeps the totals of points for and against, wins and losses |
| Standings.DeriveIds | src/pages/StandingsPage.tsx:95-99 | deriving tallies with distinct ids gives rows with distinct ids, and the same set of ids |
| Standings.BuildStandings | src/pages/StandingsPage.tsx:84-101 | the two loops compute `StandingsOf`; the rows are sorted and there is one per distinct team id (same text as src/pages/KnockoutPage.tsx:15-32) |
| Standings.RegisterShape | src/pages/StandingsPage.tsx:86 | `map.set` of a zero row keeps ids distinct and adds the team's id; the row with that id is the zero row; a present id is overwritten in place (same length), an absent one is appended at the end; every other row is kept |
| Standings.InitTalliesShape | src/pages/StandingsPage.tsx:86 | after the first loop the ids are distinct, are the teams' ids, and every counter is zero |
| Standings.CreditSidesCounters | src/pages/StandingsPage.tsx:90-93 | crediting a row as side 1, side 2, both or neither adds exactly that side's points, win and loss |
| Standings.StepCounters | src/pages/StandingsPage.tsx:87-93 | one match changes every row by exactly what the reference `Gain` assigns to that row's team, and nothing else |
| Standings.FoldCounters | src/pages/StandingsPage.tsx:87-94 | after all matches each row's counters are its initial ones plus the reference sum `Ref` over the matches |
| Standings.StepBalanced | src/pages/StandingsPage.tsx:90-93 | one match keeps total points for equal to total points against, and total wins equal to total losses |
| Standings.FoldBalanced | src/pages/StandingsPage.tsx:87-94 | the same balance holds after any list of matches |
| Standings.InsertSorted | src/pages/StandingsPage.tsx:100 | inserting into sorted rows adds one row, keeps them sorted, and puts the new row or the old first row first |
| Standings.InsertPerm | src/pages/StandingsPage.tsx:100 | inserting adds exactly the new row to the multiset of rows |
| Standings.InsertFacts | src/pages/StandingsPage.tsx:100 | inserting into sorted rows keeps them sorted, is a permutation and keeps the totals |
| Standings.InsertIds | src/pages/StandingsPage.tsx:100 | inserting a new id keeps ids distinct and adds exactly that id |
| Standings.RankSorted | src/pages/StandingsPage.tsx:100 | the sort gives sorted rows that are a permutation of its input |
| Standings.RankIds | src/pages/StandingsPage.tsx:100 | the sort keeps distinct ids distinct and keeps the set of ids |
| Standings.RankFacts | src/pages/StandingsPage.tsx:100 | the sort gives sorted rows (highest composite first) that are a permutation of the input, with the same totals and ids |
| Standings.StandingsSorted | src/pages/StandingsPage.tsx:95-100 | the standings are sorted by composite, highest first, and are a permutation of the derived rows |
| Standings.StandingsOneRowPerTeam | src/pages/StandingsPage.tsx:86 | exactly one row per distinct team id, and no other rows |
| Standings.StandingsRowCounters | src/pages/StandingsPage.tsx:86-99 | every row's counters are the sum, over final matches between known teams, of its points and results; `diff = pf - pa` and `composite = wins*100000 + (diff+1000)*100 + pf` |
| Standings.NoMatchesZeroRow | src/pages/StandingsPage.tsx:86 | a team with no counted match has all-zero counters, zero difference and zero win ratio |
| Standings.StandingsBalanced | src/pages/StandingsPage.tsx:90-93 | over all rows, points for equal points against and wins equal losses |
| Standings.ScoredWinnerIsCredited | src/lib/firestore.ts:48 | the winner `updateScore` stores is the team the fold credits with the win, and the other team gets the loss |
| Standings.FoldSkips | src/pages/StandingsPage.tsx:87 | a match that is not final changes nothing |
| Standings.ClearedMatchIgnored | src/lib/firestore.ts:68 | a match scored and then cleared leaves the standings as if it were absent |
| Standings.CompositeOrder | src/pages/StandingsPage.tsx:99 | with points in 0..497, more wins means a larger key; with equal wins one key is larger exactly when 100 times its difference lead exceeds its points-for lag, so a larger difference wins when points-for lags by less than 100; with equal difference, more points-for wins |
| Standings.DiffTieBreakLimit | src/pages/StandingsPage.tsx:99 | 3 wins at +6 on 60 points rank below 3 wins at +5 on 260 points |
| Standings.StandingsTieBreaks | src/pages/StandingsPage.tsx:33 | in the standings, rows come in the on-page tie-break order (wins, then difference, then points for) within those bounds |
| Bracket.WithMatch | src/lib/bracket.ts:38 | replacing one match leaves the other two and the champion as they were |
| Bracket.GameWinner | src/lib/bracket.ts:52-54 | a game goes to a side exactly when both scores are numbers and that side's is strictly higher; otherwise, and on a tie, to neither |
| Bracket.MatchWinner | src/lib/bracket.ts:63 | the side with more games is the winner; equal counts give null |
| Bracket.TallyGames | src/lib/bracket.ts:48-56 | the loop over `g1`..`g3` computes `Count` of the slots |
| Bracket.ScoreMatch | src/lib/bracket.ts:38-63 | the saved match is the target with its slots ensured, game `game` written and counts and winner recomputed (`Scored`) |
| Bracket.Bracket.constructor | src/lib/bracket.ts:35 | the object holds the record as read |
| Bracket.Bracket.PutMatch | src/lib/bracket.ts:38 | `cur[matchKey] = m` is `WithMatch` |
| Bracket.Bracket.SaveKOScore | src/lib/bracket.ts:32-103 | the record written back is `AfterSave` of the record read |
| Bracket.Bracket.AdvanceFinal | src/lib/bracket.ts:66-83 | propagation into the final is `Advance` |
| Bracket.Bracket.SettleFinal | src/lib/bracket.ts:86-99 | the final's recount and the champion are `Settle` |
| Bracket.Bracket.ClearKOMatch | src/lib/bracket.ts:105-124 | the record written back is `AfterClearMatch` |
| Bracket.Bracket.SetSeedsFromStandings | src/lib/bracket.ts:14-29 | the merged record is `AfterSetSeeds` |
| Bracket.Bracket.ClearSeeds | src/lib/bracket.ts:126-134 | the merged record is `AfterClearSeeds` |
| Bracket.CountBound | src/lib/bracket.ts:48-56 | each slot counts for at most one side, so the two counts add up to at most the number of slots |
| Bracket.ConsistentWinner | src/lib/bracket.ts:57-63 | in a match whose counts are those of its games, `gamesWonT1 + gamesWonT2 <= 3`, and the winner is team 1, team 2 or null by the counts |
| Bracket.RecountFacts | src/lib/bracket.ts:57-63 | a recount makes counts and winner agree with the games, changes nothing else, and changes nothing in a match that already agrees |
| Bracket.CountTwo | src/pages/KnockoutPage.tsx:128-129 | the tally of two slots is the sum of what each slot gives |
| Bracket.CountThree | src/lib/bracket.ts:49-56 | the tally of three slots is the sum of what each slot gives |
| Bracket.NoGamesNoWins | src/lib/bracket.ts:71-72 | a match with its games deleted counts zero games for both sides |
| Bracket.SaveWritesOneGame | src/lib/bracket.ts:38-45 | the save writes the given scores into slot `game`; the other two slots are kept (an absent one becomes `{}`); teams are kept; counts and winner agree with the games; the other semifinal is untouched |
| Bracket.ScoredFacts | src/lib/bracket.ts:38-63 | the saved match agrees with its games, keeps its teams and markers, and saving the same game into it again changes nothing |
| Bracket.AdvanceFacts | src/lib/bracket.ts:66-83 | propagation keeps a coherent final coherent, and a truthy semifinal winner ends up in its final slot and marker |
| Bracket.AdvanceFixed | src/lib/bracket.ts:66-83 | nothing is propagated for the final, for a falsy winner, or when the slot and marker already hold the winner |
| Bracket.SettleFacts | src/lib/bracket.ts:86-99 | settling touches only the final's counts and winner and the champion, makes a recounted final agree with its games, and is idempotent |
| Bracket.SaveIdempotent | src/lib/bracket.ts:44-99 | repeating a save with the same arguments leaves the whole record unchanged |
| Bracket.SemifinalAdvances | src/lib/bracket.ts:66-83 | a truthy semifinal winner fills its final slot and marker; a changed marker deletes the final's games and zeroes its counts and winner, an unchanged one keeps the games; a null winner leaves the final's teams, games and markers alone |
| Bracket.ChampionIsFinalWinner | src/lib/bracket.ts:86-99 | when the final is the target or holds two teams, its counts and winner agree with its games and the champion is its winner or null; otherwise the champion is unchanged |
| Bracket.EmptyCoherent | src/lib/bracket.ts:35 | the empty record is coherent: counts agree with games and final slots agree with their markers |
| Bracket.SavePreservesCoherent | src/lib/bracket.ts:32-103 | every save keeps the record coherent |
| Bracket.ClearMatchPreservesCoherent | src/lib/bracket.ts:105-124 | clearing a match keeps the record coherent |
| Bracket.ClearMatchResets | src/lib/bracket.ts:110-121 | the cleared match keeps its teams and loses games, counts, winner and markers; only clearing the final clears the champion; the other matches are untouched |
| Bracket.SeedsCross | src/lib/bracket.ts:18-28 | seeding sets sf1 to (A1, B2) and sf2 to (B1, A2), empties the final's slots and the champion, zeroes all counts and winners, and keeps games and markers |
| Bracket.ClearSeedsResets | src/lib/bracket.ts:128-133 | clearing the seeds nulls every team slot, winner and the champion, zeroes counts, and keeps games and markers |
| Bracket.ClearSeedsEmptyIff | src/lib/bracket.ts:126-134 | clearing the seeds gives the empty record iff no match holds games or markers |
| Bracket.SeedingLeavesStaleGames | src/lib/bracket.ts:18-28 | seeding over a played semifinal leaves a match whose counts disagree with its stored games |
| Bracket.DecidingGame | src/lib/bracket.ts:44-83 | one game won 1–0 already decides a semifinal and fills the final slot; at 1–1 the winner is null but the final keeps the slot; game 3 decides 2–1 |
| Bracket.Advanced1Value | src/lib/bracket.ts:18-83 | after seeding an empty record and A1 winning game 1 of the first semifinal 11–5, A1 holds the final's first slot and marker, the final has no games and there is no champion |
| Bracket.LevelledValue | src/lib/bracket.ts:44-83 | after B2 then wins game 2, the semifinal stands 1–1 with a null winner while the final keeps A1 in its first slot and marker |
| Bracket.StaleChampion | src/lib/bracket.ts:66-99 | a final played with one finalist names a champion, and a later change of that finalist wipes the final but keeps the champion |
| Bracket.SaveWithoutTeams | src/lib/bracket.ts:38-63 | after the seeds are cleared, a save into a match with no teams is stored and counted, with a null winner and nothing propagated |
| KnockoutPage.HasResults | src/pages/KnockoutPage.tsx:76-77 | `some(m => m.status === 'final')`; stated through `KnockoutPage.LiveSeedsFromRows` and `KnockoutPage.ViewHiddenWithoutResults` |
| KnockoutPage.AllowSeeds | src/pages/KnockoutPage.tsx:78 | both groups have a result; stated through `KnockoutPage.LiveSeedsFromRows`, `KnockoutPage.SeedButtonGuard` and `KnockoutPage.ViewHiddenWithoutResults` |
| KnockoutPage.LiveSeeds | src/pages/KnockoutPage.tsx:81-86 | the live seeds; their properties are `KnockoutPage.LiveSeedsFromRows` and `KnockoutPage.SeedsAreTopTwo` |
| KnockoutPage.SeedButtonDisabled | src/pages/KnockoutPage.tsx:253 | the button's `disabled`; stated by `KnockoutPage.SeedButtonGuard` |
| KnockoutPage.OnSetSeeds | src/pages/KnockoutPage.tsx:254-260 | the button's click; stated by `KnockoutPage.SeedButtonGuard` and `KnockoutPage.SeedClickPairs` |
| KnockoutPage.StoredMatch | src/pages/KnockoutPage.tsx:212-214 | `bracket?.sf1 \|\| {}` and the like; used by the view lemmas |
| KnockoutPage.View | src/pages/KnockoutPage.tsx:212-232 | the view of the three matches; stated by `KnockoutPage.ViewHiddenWithoutResults`, `KnockoutPage.SemifinalView`, `KnockoutPage.FinalViewFromWinners` and `KnockoutPage.ViewAgreesWithStore` |
| KnockoutPage.SaveAll | src/pages/KnockoutPage.tsx:141-151 | the three saves of `onSaveAll`; stated by `KnockoutPage.SaveAllStoresInputs` |
| KnockoutPage.HasAnySeeds | src/pages/KnockoutPage.tsx:235-240 | `hasAnySeeds`; stated by `KnockoutPage.HasAnySeedsAfterWrites` |
| KnockoutPage.G3Locked | src/pages/KnockoutPage.tsx:134-137 | `g3Locked`; stated by `KnockoutPage.G3UnlockedIff` and `KnockoutPage.LocalWins` |
| KnockoutPage.LiveSeedsFromRows | src/pages/KnockoutPage.tsx:76-86 | without a final match in both groups all seeds are null; with them the first (second) seed of a group is set exactly when the group has at least one (two) distinct team ids |
| KnockoutPage.SeedsAreTopTwo | src/pages/KnockoutPage.tsx:81-86 | the first seed is a team of the group with the highest composite; the second is a different team ranked at least as high as all after it |
| KnockoutPage.SeedButtonGuard | src/pages/KnockoutPage.tsx:253-258 | the button is enabled exactly when all four seeds are truthy, and otherwise a click changes nothing |
| KnockoutPage.SeedClickPairs | src/pages/KnockoutPage.tsx:255-256 | a click with complete seeds pairs A's first with B's second and B's first with A's second, and empties the final and champion |
| KnockoutPage.ViewHiddenWithoutResults | src/pages/KnockoutPage.tsx:217-232 | without results in both groups no team is shown and all three matches are disabled |
| KnockoutPage.SemifinalView | src/pages/KnockoutPage.tsx:217-226 | a semifinal shows the stored team where there is one and the live seed (A1/B2, B1/A2) elsewhere, is disabled unless both are truthy, and shows the stored games and winner |
| KnockoutPage.FinalViewFromWinners | src/pages/KnockoutPage.tsx:229-232 | the final shows the truthy semifinal winners (when seeding is allowed) whatever its stored slots hold, and is disabled unless both are shown |
| KnockoutPage.ViewAgreesWithStore | src/pages/KnockoutPage.tsx:229-230 | after a semifinal save with a truthy winner, the shown final slot equals the stored one |
| KnockoutPage.SaveAllStoresInputs | src/pages/KnockoutPage.tsx:141-151 | after the three saves the match holds exactly the three games entered, keeps its teams, and its counts and winner are the tally of those games |
| KnockoutPage.HasAnySeedsAfterWrites | src/pages/KnockoutPage.tsx:235-240 | nothing to clear without a bracket or after clearing the seeds; after seeding there is something to clear iff some seed id is non-empty; clearing the seeds changes any record that has something to clear |
| KnockoutPage.LocalWins | src/pages/KnockoutPage.tsx:124-131 | the local tally of games 1 and 2 is `Count` of those two games |
| KnockoutPage.G3UnlockedIff | src/pages/KnockoutPage.tsx:134-137 | game 3 is unlocked exactly when each side has won one of games 1 and 2 |
| GroupPage.CourtClass | src/pages/GroupPage.tsx:113-120 | the class is `''` (always so for a missing or empty court) or `court-` followed by one of 1–4 that occurs in the text; which digit, and when `''`, is stated by the `CourtClass…` lemmas below |
| GroupPage.CourtClassOf | src/pages/GroupPage.tsx:115-118 | the class is the seven characters `court-` followed by the digit |
| GroupPage.CourtClassAbsent | src/pages/GroupPage.tsx:114 | an absent or empty court has class `''` |
| GroupPage.CourtClassFirstDigit | src/pages/GroupPage.tsx:115-118 | the class is `court-d` iff the text contains digit d and none of the digits tested before it |
| GroupPage.CourtClassEmptyIff | src/pages/GroupPage.tsx:113-119 | the class is `''` iff there is no court text or it holds none of 1–4 |
| GroupPage.CourtClassExamples | src/pages/GroupPage.tsx:115-118 | "Court 12" and "Court 21" are court 1, "Court 3" is court 3, "Main court" has no class |
| GroupPage.Win1 | src/pages/GroupPage.tsx:87 | `win1`; stated by `GroupPage.NeverBothWin` and `GroupPage.HighlightAfterSave` |
| GroupPage.Win2 | src/pages/GroupPage.tsx:88 | `win2`; stated by `GroupPage.NeverBothWin` and `GroupPage.HighlightAfterSave` |
| GroupPage.NeverBothWin | src/pages/GroupPage.tsx:87-88 | with two different teams, at most one cell is highlighted |
| GroupPage.HighlightAfterSave | src/pages/GroupPage.tsx:87-88 | after a score write, the strictly higher scorer's cell is highlighted iff its id is truthy, a tie highlights neither, and after a clear neither is highlighted |

## Left out

- Store I/O is not modelled: reading, writing and subscribing to documents,
  and loading the teams. Each write is modelled as the record before and
  after it.
- A read-modify-write race between two editors of the bracket is not
  modelled. That is concurrency: the last write wins.
- `updateDoc` on a bracket document that does not exist fails in the store.
  The model treats the missing document as the empty record and does not
  model the failure.
- The store also refuses an `undefined` field value. This happens when a
  match with no team ids gets a winner. It is not modelled, because absent
  and null are the same `None` throughout.
- Authentication, routing, React state and effects, rendering, `alert` and
  `confirm`, busy flags, and the whole admin page are not modelled.
- `updatedAt: Date.now()`, dates and time formatting are not modelled.
  Team names and codes appear only as display fields.
- Bracket game scores are optional integers. A `NaN` or fractional score
  typed into a knockout game, which the source would store and compare,
  is not modelled. The same holds for the knockout page's input fields.
  Only the round-robin score editor models NaN, infinities and fractions.
- Standings.WinPct: the win ratio is an exact rational, not a
  floating-point division.
- Standings.RankFacts: the sort is a stable insertion sort, like
  JavaScript's. It is proved sorted and a permutation; stability itself is
  not stated.
- The seed preview line on the knockout page (display only) is not
  modelled.
- The "Clear Seeds" click's confirmation step is not modelled. Its
  enabling condition, `hasAnySeeds`, is.

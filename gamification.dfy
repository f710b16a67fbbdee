/** The points and achievement rules of App.tsx: `addPoints`,
    `unlockAchievement`, and the rewards each handler hands out. */
module Gamification {
  import opened Wrappers
  import opened Seqs
  import opened Types
  import opened Constants

  /** `addPoints`: the profile with `n` more study points. */
  function Awarded(p: UserProfile, n: int): UserProfile {
    p.(points := p.points + n)
  }

  /** `unlockAchievement`: an id already unlocked or not in the catalogue
      leaves the profile alone; otherwise the id is appended and the unlock
      bonus is awarded. */
  function Unlocked(p: UserProfile, id: string): UserProfile {
    if id in p.unlockedAchievements then p
    else match FindAchievement(id)
      case None => p
      case Some(_) => Awarded(p.(unlockedAchievements := p.unlockedAchievements + [id]), UnlockAchievementPoints)
  }

  /** The profile differs from `p` at most in points, unlocked list and
      personal best, and its unlocked list extends that of `p`. */
  ghost predicate Extends(r: UserProfile, p: UserProfile) {
    r == p.(points := r.points, unlockedAchievements := r.unlockedAchievements, personalBest := r.personalBest)
    && |p.unlockedAchievements| <= |r.unlockedAchievements|
    && r.unlockedAchievements[..|p.unlockedAchievements|] == p.unlockedAchievements
  }

  /** The points gained beyond `base`, less the unlock bonuses. */
  function NewUnlocks(r: UserProfile, p: UserProfile): int {
    |r.unlockedAchievements| - |p.unlockedAchievements|
  }

  /** An id ends up unlocked exactly when it was already unlocked or it is in
      the catalogue; each newly unlocked id is paid 25 points, and nothing
      else about the profile changes. */
  lemma UnlockRewardsOnce(p: UserProfile, id: string)
    ensures var r := Unlocked(p, id);
      && Extends(r, p) && r.personalBest == p.personalBest
      && (id in r.unlockedAchievements <==> id in p.unlockedAchievements || id in AchievementIds())
      && (forall x :: x != id ==> (x in r.unlockedAchievements <==> x in p.unlockedAchievements))
      && 0 <= NewUnlocks(r, p) <= 1
      && r.points == p.points + UnlockAchievementPoints * NewUnlocks(r, p)
  {
    FindAchievementIds(id);
  }

  /** A catalogue id not yet unlocked is appended and paid for. */
  lemma UnlockFresh(p: UserProfile, id: string)
    requires id !in p.unlockedAchievements && id in AchievementIds()
    ensures Unlocked(p, id) == p.(unlockedAchievements := p.unlockedAchievements + [id],
                                  points := p.points + UnlockAchievementPoints)
  {
    FindAchievementIds(id);
  }

  /** Unlocking keeps the unlocked list free of repeats; an unlocked
      catalogue id then occurs in it exactly once. */
  lemma UnlockKeepsDistinct(p: UserProfile, id: string)
    requires Distinct(p.unlockedAchievements)
    ensures Distinct(Unlocked(p, id).unlockedAchievements)
    ensures id in AchievementIds() ==> Count(Unlocked(p, id).unlockedAchievements, id) == 1
  {
    FindAchievementIds(id);
    var r := Unlocked(p, id);
    CountDistinct(r.unlockedAchievements, id);
  }

  lemma UnlockIdempotent(p: UserProfile, id: string)
    ensures Unlocked(Unlocked(p, id), id) == Unlocked(p, id)
  {
    FindAchievementIds(id);
  }

  lemma ExtendsTransitive(c: UserProfile, b: UserProfile, a: UserProfile)
    requires Extends(c, b) && Extends(b, a)
    ensures Extends(c, a)
  {
    assert c.unlockedAchievements[..|a.unlockedAchievements|]
        == c.unlockedAchievements[..|b.unlockedAchievements|][..|a.unlockedAchievements|];
  }

  /** `n` consecutive `unlockAchievement(id)` calls. */
  function UnlockedTimes(p: UserProfile, id: string, n: nat): UserProfile {
    if n == 0 then p else Unlocked(UnlockedTimes(p, id, n - 1), id)
  }

  /** Unlocking the same id again and again pays out only once. */
  lemma {:induction false} UnlockRepeated(p: UserProfile, id: string, n: nat)
    requires n >= 1
    ensures UnlockedTimes(p, id, n) == Unlocked(p, id)
  {
    if n > 1 {
      UnlockRepeated(p, id, n - 1);
      UnlockIdempotent(p, id);
    }
  }

  /** `if (cond) unlockAchievement(id)`. */
  function UnlockedIf(p: UserProfile, cond: bool, id: string): UserProfile {
    if cond then Unlocked(p, id) else p
  }

  /** The personal-best update of `handlePredict`: `best` is the personal
      best from before this prediction's rewards (App.tsx:121 reads the
      profile of the click; nothing changes the best during the await). */
  function WithBest(p: UserProfile, score: real, best: real): UserProfile {
    if score > best then p.(personalBest := score) else p
  }

  /** The rewards of a successful `handlePredict`: 10 points, then
      'firstPrediction', then the personal best, then 'highAchiever' at 90
      and 'perfectScore' at 95. */
  function AfterPrediction(p: UserProfile, score: real): UserProfile {
    var p1 := Unlocked(Awarded(p, RunPredictionPoints), "firstPrediction");
    var p2 := WithBest(p1, score, p.personalBest);
    UnlockedIf(UnlockedIf(p2, score >= 90.0, "highAchiever"), score >= 95.0, "perfectScore")
  }

  /** The three ids a prediction can unlock are in the catalogue. */
  lemma PredictionIds()
    ensures "firstPrediction" in AchievementIds()
    ensures "highAchiever" in AchievementIds()
    ensures "perfectScore" in AchievementIds()
  {
    AchievementCatalogue();
  }

  /** One conditional unlock of a catalogue id, on a profile that already
      extends `base`. */
  lemma UnlockStep(q: UserProfile, base: UserProfile, cond: bool, id: string)
    requires Extends(q, base) && id in AchievementIds()
    ensures var r := UnlockedIf(q, cond, id);
      && Extends(r, base) && r.personalBest == q.personalBest
      && (id in r.unlockedAchievements <==> id in q.unlockedAchievements || cond)
      && (forall x :: x != id ==> (x in r.unlockedAchievements <==> x in q.unlockedAchievements))
      && r.points == q.points + UnlockAchievementPoints * NewUnlocks(r, q)
  {
    UnlockRewardsOnce(q, id);
    ExtendsTransitive(UnlockedIf(q, cond, id), q, base);
  }

  /** After a prediction the personal best is the maximum of the old best
      and the score; 'firstPrediction' is unlocked; 'highAchiever' and
      'perfectScore' are unlocked exactly when they already were or the
      score reaches 90 and 95; and the points grow by 10 plus 25 per new
      unlock. */
  lemma PredictionRewards(p: UserProfile, score: real)
    ensures var r := AfterPrediction(p, score);
      && Extends(r, p)
      && r.personalBest == (if score > p.personalBest then score else p.personalBest)
      && "firstPrediction" in r.unlockedAchievements
      && ("highAchiever" in r.unlockedAchievements <==> "highAchiever" in p.unlockedAchievements || score >= 90.0)
      && ("perfectScore" in r.unlockedAchievements <==> "perfectScore" in p.unlockedAchievements || score >= 95.0)
      && r.points == p.points + RunPredictionPoints + UnlockAchievementPoints * NewUnlocks(r, p)
  {
    PredictionIds();
    var p0 := Awarded(p, RunPredictionPoints);
    assert Extends(p0, p) by { assert p0.unlockedAchievements[..|p.unlockedAchievements|] == p.unlockedAchievements; }
    UnlockStep(p0, p, true, "firstPrediction");
    var p1 := Unlocked(p0, "firstPrediction");
    var p2 := WithBest(p1, score, p.personalBest);
    assert Extends(p2, p);
    UnlockStep(p2, p, score >= 90.0, "highAchiever");
    var p3 := UnlockedIf(p2, score >= 90.0, "highAchiever");
    UnlockStep(p3, p, score >= 95.0, "perfectScore");
    var r := UnlockedIf(p3, score >= 95.0, "perfectScore");
    assert r == AfterPrediction(p, score);
  }

  /** A prediction keeps the unlocked list free of repeats. */
  lemma PredictionKeepsDistinct(p: UserProfile, score: real)
    requires Distinct(p.unlockedAchievements)
    ensures Distinct(AfterPrediction(p, score).unlockedAchievements)
  {
    var p0 := Awarded(p, RunPredictionPoints);
    UnlockKeepsDistinct(p0, "firstPrediction");
    var p1 := Unlocked(p0, "firstPrediction");
    var p2 := WithBest(p1, score, p.personalBest);
    UnlockKeepsDistinct(p2, "highAchiever");
    var p3 := UnlockedIf(p2, score >= 90.0, "highAchiever");
    UnlockKeepsDistinct(p3, "perfectScore");
  }

  /** The first prediction unlocks 'firstPrediction' alone. */
  lemma FirstUnlock(p: UserProfile)
    requires p.unlockedAchievements == []
    ensures Unlocked(p, "firstPrediction").unlockedAchievements == ["firstPrediction"]
    ensures Unlocked(p, "firstPrediction").points == p.points + UnlockAchievementPoints
  {
    PredictionIds();
    UnlockFresh(p, "firstPrediction");
  }

  /** After 'firstPrediction', 'highAchiever' is appended. */
  lemma HighUnlock(p: UserProfile)
    requires p.unlockedAchievements == ["firstPrediction"]
    ensures Unlocked(p, "highAchiever").unlockedAchievements == ["firstPrediction", "highAchiever"]
    ensures Unlocked(p, "highAchiever").points == p.points + UnlockAchievementPoints
  {
    PredictionIds();
    assert "highAchiever" != "firstPrediction" by {
      assert "highAchiever"[0] != "firstPrediction"[0];
    }
    UnlockFresh(p, "highAchiever");
  }

  /** After the other two, 'perfectScore' is appended. */
  lemma PerfectUnlock(p: UserProfile)
    requires p.unlockedAchievements == ["firstPrediction", "highAchiever"]
    ensures Unlocked(p, "perfectScore").unlockedAchievements == ["firstPrediction", "highAchiever", "perfectScore"]
    ensures Unlocked(p, "perfectScore").points == p.points + UnlockAchievementPoints
  {
    PredictionIds();
    assert "perfectScore" != "firstPrediction" && "perfectScore" != "highAchiever" by {
      assert "perfectScore"[0] != "firstPrediction"[0] && "perfectScore"[0] != "highAchiever"[0];
    }
    UnlockFresh(p, "perfectScore");
  }

  /** A first prediction of 96 unlocks the three prediction achievements in
      order and pays 10 + 3 * 25 = 85 points. */
  lemma PredictionOf96(p: UserProfile)
    requires p.unlockedAchievements == []
    ensures AfterPrediction(p, 96.0).unlockedAchievements == ["firstPrediction", "highAchiever", "perfectScore"]
    ensures AfterPrediction(p, 96.0).points == p.points + 85
  {
    var p0 := Awarded(p, RunPredictionPoints);
    FirstUnlock(p0);
    var p2 := WithBest(Unlocked(p0, "firstPrediction"), 96.0, p.personalBest);
    HighUnlock(p2);
    PerfectUnlock(Unlocked(p2, "highAchiever"));
  }

  /** The rewards of `handleLogData` once the history holds `historyLength`
      entries. */
  function AfterLog(p: UserProfile, historyLength: nat): UserProfile {
    var p1 := Awarded(p, LogDataPoints);
    if historyLength >= 5 then Unlocked(p1, "historian") else p1
  }

  /** Logging pays 5 points, and 'historian' is unlocked exactly when it
      already was or the history has reached five entries. */
  lemma LogRewards(p: UserProfile, historyLength: nat)
    ensures var r := AfterLog(p, historyLength);
      && Extends(r, p) && r.personalBest == p.personalBest
      && ("historian" in r.unlockedAchievements <==> "historian" in p.unlockedAchievements || historyLength >= 5)
      && r.points == p.points + LogDataPoints + UnlockAchievementPoints * NewUnlocks(r, p)
  {
    AchievementCatalogue();
    UnlockRewardsOnce(Awarded(p, LogDataPoints), "historian");
  }

  /** The rewards of `handleQuizComplete(bonus)`: a positive bonus, then 50
      points and 'sessionMaster'. */
  function AfterQuiz(p: UserProfile, bonus: int): UserProfile {
    var p1 := if bonus > 0 then Awarded(p, bonus) else p;
    Unlocked(Awarded(p1, CompleteStudySessionPoints), "sessionMaster")
  }

  /** Completing a session pays the bonus when it is positive, 50 points and
      the 'sessionMaster' unlock when it is new. */
  lemma QuizRewards(p: UserProfile, bonus: int)
    ensures var r := AfterQuiz(p, bonus);
      && Extends(r, p) && r.personalBest == p.personalBest
      && "sessionMaster" in r.unlockedAchievements
      && r.points == p.points + (if bonus > 0 then bonus else 0) + CompleteStudySessionPoints
                     + UnlockAchievementPoints * NewUnlocks(r, p)
  {
    AchievementCatalogue();
    var p1 := if bonus > 0 then Awarded(p, bonus) else p;
    UnlockRewardsOnce(Awarded(p1, CompleteStudySessionPoints), "sessionMaster");
  }
}

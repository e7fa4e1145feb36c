/** What the learner is told about a score: an encouragement message, an
    accuracy tier and a list of tips. The three use their own thresholds. */
module Feedback {

  /** The messages, from the highest band to the fallback. The text after
      each exclamation mark is kept with the exact code points of the
      repository's source file, which holds its emoji double-encoded. */
  const Messages: seq<string> := [
    "Excellent! Perfect letter! \U{00F0}\U{0178}\U{0152}\U{0178}\U{00E2}\U{0153}\U{00A8}",
    "Great job! Very good! \U{00F0}\U{0178}\U{2018}\U{00F0}\U{0178}\U{017D}\U{2030}",
    "Good work! Keep it up! \U{00F0}\U{0178}\U{2019}\U{00AA}\U{00F0}\U{0178}\U{02DC}\U{0160}",
    "Nice try! Practice a bit more! \U{00F0}\U{0178}\U{2018}",
    "Try again! You can do better! \U{00F0}\U{0178}\U{017D}\U{00AF}",
    "Keep trying! Follow the model letter! \U{00F0}\U{0178}\U{2019}\U{00A1}"
  ]

  /** The message thresholds, in the order they are tried. */
  const MessageThresholds: seq<int> := [90, 80, 70, 60, 50]

  /** The encouragement message for a score. */
  function Message(score: int): (msg: string)
    ensures msg in Messages
    ensures score < 50 ==> msg == Messages[|Messages| - 1]
  {
    if score >= 90 then Messages[0]
    else if score >= 80 then Messages[1]
    else if score >= 70 then Messages[2]
    else if score >= 60 then Messages[3]
    else if score >= 50 then Messages[4]
    else Messages[5]
  }

  /** The message is the one of the first threshold, tried from the top,
      that the score reaches, or the fallback when it reaches none. */
  lemma MessageOfFirstThresholdMet(score: int, k: nat)
    requires k <= |MessageThresholds|
    requires forall j :: 0 <= j < k ==> score < MessageThresholds[j]
    requires k < |MessageThresholds| ==> MessageThresholds[k] <= score
    ensures Message(score) == Messages[k]
  {
    if k > 0 {
      assert score < MessageThresholds[0];
    }
    if k > 1 {
      assert score < MessageThresholds[1];
    }
    if k > 2 {
      assert score < MessageThresholds[2];
    }
    if k > 3 {
      assert score < MessageThresholds[3];
    }
    if k > 4 {
      assert score < MessageThresholds[4];
    }
  }

  /** The six messages are pairwise different, so a message tells which
      band the score fell in. */
  lemma MessagesDistinct(i: nat, j: nat)
    requires i < j < |Messages|
    ensures Messages[i] != Messages[j]
  {
  }

  /** The coarse accuracy tier, ordered from worst to best. */
  datatype Tier = NeedsPractice | Fair | Good | Excellent {

    /** The tier's name as reported to the learner; the names are listed
        from the worst tier to the best. */
    function Label(): (s: string)
      ensures s in TierLabels
      ensures s == TierLabels[Rank()]
    {
      match this
      case NeedsPractice => "needs_practice"
      case Fair => "fair"
      case Good => "good"
      case Excellent => "excellent"
    }

    /** The tier's place in the order. */
    function Rank(): nat
    {
      match this
      case NeedsPractice => 0
      case Fair => 1
      case Good => 2
      case Excellent => 3
    }
  }

  /** The tier names, from worst to best. */
  const TierLabels: seq<string> := ["needs_practice", "fair", "good", "excellent"]

  /** Different tiers are reported under different names. */
  lemma LabelsDistinct(t: Tier, u: Tier)
    requires t != u
    ensures t.Label() != u.Label()
  {
  }

  /** The accuracy tier of a score: each tier is reached exactly when the
      score clears that tier's threshold (60, 75, 90). */
  function AccuracyLevel(score: int): (t: Tier)
    ensures t.Rank() >= Fair.Rank() <==> score >= 60
    ensures t.Rank() >= Good.Rank() <==> score >= 75
    ensures t.Rank() >= Excellent.Rank() <==> score >= 90
  {
    if score >= 90 then Excellent
    else if score >= 75 then Good
    else if score >= 60 then Fair
    else NeedsPractice
  }

  /** A higher score never earns a lower tier. */
  lemma AccuracyMonotone(a: int, b: int)
    requires a <= b
    ensures AccuracyLevel(a).Rank() <= AccuracyLevel(b).Rank()
  {
  }

  /** Tips, in the order they are given. */
  const FollowPrefix: string := "Follow the model letter '"
  const FollowSuffix: string := "' more carefully"
  const SlowerTip: string := "Try to draw slower and more precisely"
  const LookTip: string := "Look at the model letter carefully before you start"
  const TimeTip: string := "Take your time, accuracy is important!"
  const KeepPracticingTip: string := "Keep practicing and you'll get even better!"

  /** The tip naming the target symbol; the symbol sits right after the
      opening quote. */
  function FollowTip(symbol: string): (t: string)
    ensures |t| == |FollowPrefix| + |symbol| + |FollowSuffix|
    ensures t[|FollowPrefix|..|FollowPrefix| + |symbol|] == symbol
  {
    FollowPrefix + symbol + FollowSuffix
  }

  /** The tips for a score: two below 70, two more below 50, and otherwise
      the single encouragement. The list is never empty. */
  function Tips(score: int, symbol: string): (ts: seq<string>)
    ensures 1 <= |ts| <= 4
    ensures score < 50 ==> |ts| == 4
    ensures 50 <= score < 70 ==> |ts| == 2
    ensures score >= 70 ==> ts == [KeepPracticingTip]
    ensures score < 70 ==> ts[..2] == [FollowTip(symbol), SlowerTip] && KeepPracticingTip !in ts
    ensures score < 50 ==> ts[2..] == [LookTip, TimeTip]
  {
    var low := if score < 70 then [FollowTip(symbol), SlowerTip] else [];
    var veryLow := if score < 50 then [LookTip, TimeTip] else [];
    var tips := low + veryLow;
    if |tips| == 0 then [KeepPracticingTip] else tips
  }

  /** Below 70, a lower score keeps every tip of a higher one, in the same
      order, and may add more at the end. */
  lemma TipsGrowAsScoreFalls(lower: int, higher: int, symbol: string)
    requires lower <= higher < 70
    ensures Tips(higher, symbol) <= Tips(lower, symbol)
  {
  }
}

/** What the listing card shows for a scored listing (src/lib/ai-matcher.ts): the
    recommendation sentence, the score colours and the owner badge. */
module MatchLabels {
  import opened Wrappers
  import opened Text
  import opened Types
  import opened Matcher

  // ---------------------------------------------------------------- recommendation

  /** The four verdicts on the final score, best first. */
  const TierPhrases: seq<string> := ["تطابق ممتاز!", "تطابق جيد جداً", "تطابق مقبول", "تطابق ضعيف"]
  const FullyTrustedPhrase := "مالك موثوق 100%"
  const TrustedPhrase := "مالك موثوق"
  const PreferencesPhrase := "يناسب تفضيلاتك بشكل كبير"
  const Bullet := " • "

  /** The verdict on a final score: 0 from 90, 1 from 75, 2 from 60, else 3. */
  function VerdictIndex(finalScore: int): (t: nat)
    ensures t < 4
    ensures t == 0 <==> finalScore >= 90
    ensures t == 1 <==> 75 <= finalScore < 90
    ensures t == 2 <==> 60 <= finalScore < 75
    ensures t == 3 <==> finalScore < 60
  {
    if finalScore >= 90 then 0 else if finalScore >= 75 then 1 else if finalScore >= 60 then 2 else 3
  }

  /** generateRecommendationText before joining: the verdict, then at most one trust
      phrase, then the preferences phrase when the match score is at least 80. */
  function RecommendationParts(s: ScoredListing): (parts: seq<string>)
    ensures |parts| >= 1 && parts[0] == TierPhrases[VerdictIndex(s.finalScore)]
    ensures FullyTrustedPhrase in parts <==> s.trustScore >= 90
    ensures TrustedPhrase in parts <==> 75 <= s.trustScore < 90
    ensures PreferencesPhrase in parts <==> s.matchScore >= 80
    ensures |parts| == 1 + (if s.trustScore >= 75 then 1 else 0) + (if s.matchScore >= 80 then 1 else 0)
    ensures s.trustScore >= 75 ==>
              parts[1] == if s.trustScore >= 90 then FullyTrustedPhrase else TrustedPhrase
    ensures s.matchScore >= 80 ==> parts[|parts| - 1] == PreferencesPhrase
  {
    var trust := if s.trustScore >= 90 then [FullyTrustedPhrase]
                 else if s.trustScore >= 75 then [TrustedPhrase] else [];
    var pref := if s.matchScore >= 80 then [PreferencesPhrase] else [];
    [TierPhrases[VerdictIndex(s.finalScore)]] + trust + pref
  }

  /** generateRecommendationText: the parts joined with " • ". */
  function RecommendationText(s: ScoredListing): (text: string)
    ensures TierPhrases[VerdictIndex(s.finalScore)] <= text
    ensures s.trustScore < 75 && s.matchScore < 80 ==> text == TierPhrases[VerdictIndex(s.finalScore)]
  {
    JoinStartsWithFirst(RecommendationParts(s), Bullet);
    Join(RecommendationParts(s), Bullet)
  }

  /** No verdict phrase is a prefix of another. */
  lemma TierPhrasesPrefixFree()
    ensures forall i, j :: 0 <= i < 4 && 0 <= j < 4 && i != j ==> !(TierPhrases[i] <= TierPhrases[j])
  {
    assert TierPhrases[0][6] != TierPhrases[1][6] && TierPhrases[0][7] != TierPhrases[2][7];
    assert TierPhrases[0][6] != TierPhrases[3][6] && TierPhrases[1][6] != TierPhrases[2][6];
    assert TierPhrases[1][6] != TierPhrases[3][6] && TierPhrases[2][6] != TierPhrases[3][6];
  }

  /** Two prefixes of one string: the shorter is a prefix of the longer. */
  lemma PrefixesOfOneText(a: string, b: string, text: string)
    requires a <= text && b <= text
    ensures a <= b || b <= a
  {
    if |a| <= |b| {
      assert a == text[..|a|] == b[..|a|];
    } else {
      assert b == text[..|b|] == a[..|b|];
    }
  }

  /** The sentence starts with the verdict on the final score and with no other
      verdict, so the verdict can be read back from its start. */
  lemma RecommendationStartsWithVerdict(s: ScoredListing)
    ensures TierPhrases[VerdictIndex(s.finalScore)] <= RecommendationText(s)
    ensures forall t :: 0 <= t < 4 && TierPhrases[t] <= RecommendationText(s) ==> t == VerdictIndex(s.finalScore)
  {
    var text := RecommendationText(s);
    var v := TierPhrases[VerdictIndex(s.finalScore)];
    JoinStartsWithFirst(RecommendationParts(s), Bullet);
    TierPhrasesPrefixFree();
    forall t | 0 <= t < 4 && TierPhrases[t] <= text
      ensures t == VerdictIndex(s.finalScore)
    {
      PrefixesOfOneText(TierPhrases[t], v, text);
    }
  }

  /** A listing with a top final score, a fully trusted owner and a strong match. */
  lemma RecommendationExample()
    ensures RecommendationText(ScoredListing(SampleListing("A", 900.0, Coordinates(0.0, 0.0)), 85, 95, 92))
            == "تطابق ممتاز!" + Bullet + FullyTrustedPhrase + Bullet + PreferencesPhrase
  {
    var s := ScoredListing(SampleListing("A", 900.0, Coordinates(0.0, 0.0)), 85, 95, 92);
    var parts := RecommendationParts(s);
    assert parts == [TierPhrases[0], FullyTrustedPhrase, PreferencesPhrase];
    assert Join(parts[2..], Bullet) == PreferencesPhrase;
    assert Join(parts[1..], Bullet) == FullyTrustedPhrase + Bullet + PreferencesPhrase;
  }

  // ---------------------------------------------------------------- colours

  /** The colour band of a score: 0 from 90, 1 from 75, 2 from 60, 3 from 40, else 4. */
  function ColorBand(score: int): (b: nat)
    ensures b < 5
    ensures b == 0 <==> score >= 90
    ensures b == 1 <==> 75 <= score < 90
    ensures b == 2 <==> 60 <= score < 75
    ensures b == 3 <==> 40 <= score < 60
    ensures b == 4 <==> score < 40
  {
    if score >= 90 then 0 else if score >= 75 then 1 else if score >= 60 then 2
    else if score >= 40 then 3 else 4
  }

  const TextColors: seq<string> :=
    ["text-green-500", "text-emerald-500", "text-yellow-500", "text-orange-500", "text-red-500"]
  const BackgroundColors: seq<string> :=
    ["bg-green-100 text-green-700", "bg-emerald-100 text-emerald-700", "bg-yellow-100 text-yellow-700",
     "bg-orange-100 text-orange-700", "bg-red-100 text-red-700"]

  /** getScoreColor. */
  function ScoreColor(score: int): (color: string)
    ensures score >= 90 ==> color == "text-green-500"
    ensures 75 <= score < 90 ==> color == "text-emerald-500"
    ensures 60 <= score < 75 ==> color == "text-yellow-500"
    ensures 40 <= score < 60 ==> color == "text-orange-500"
    ensures score < 40 ==> color == "text-red-500"
  {
    TextColors[ColorBand(score)]
  }

  /** getScoreBgColor. */
  function ScoreBgColor(score: int): (color: string)
    ensures score >= 90 ==> color == "bg-green-100 text-green-700"
    ensures 75 <= score < 90 ==> color == "bg-emerald-100 text-emerald-700"
    ensures 60 <= score < 75 ==> color == "bg-yellow-100 text-yellow-700"
    ensures 40 <= score < 60 ==> color == "bg-orange-100 text-orange-700"
    ensures score < 40 ==> color == "bg-red-100 text-red-700"
  {
    BackgroundColors[ColorBand(score)]
  }

  /** The five colours of each palette are distinct. */
  lemma PalettesDistinct()
    ensures forall i, j :: 0 <= i < j < 5 ==> TextColors[i] != TextColors[j]
    ensures forall i, j :: 0 <= i < j < 5 ==> BackgroundColors[i] != BackgroundColors[j]
  {
    assert forall i :: 0 <= i < 5 ==> TextColors[i][5] == ['g', 'e', 'y', 'o', 'r'][i];
    assert forall i :: 0 <= i < 5 ==> BackgroundColors[i][3] == ['g', 'e', 'y', 'o', 'r'][i];
  }

  /** Two scores get the same text colour exactly when they get the same background,
      exactly when they fall in the same band: the two palettes never disagree. */
  lemma ColorsAgree(a: int, b: int)
    ensures ScoreColor(a) == ScoreColor(b) <==> ColorBand(a) == ColorBand(b)
    ensures ScoreBgColor(a) == ScoreBgColor(b) <==> ColorBand(a) == ColorBand(b)
  {
    PalettesDistinct();
    var i, j := ColorBand(a), ColorBand(b);
    if i < j {
      assert TextColors[i] != TextColors[j] && BackgroundColors[i] != BackgroundColors[j];
    } else if j < i {
      assert TextColors[j] != TextColors[i] && BackgroundColors[j] != BackgroundColors[i];
    }
  }

  /** A higher score never gets a lower band. */
  lemma ColorBandMonotone(lower: int, higher: int)
    requires lower <= higher
    ensures ColorBand(higher) <= ColorBand(lower)
  {
  }

  // ---------------------------------------------------------------- owner badge

  datatype Badge = Badge(text: string, color: string, icon: string)

  const NewOwnerBadge := Badge("مالك جديد", "bg-gray-100 text-gray-600", "User")
  const TrustedOwnerBadge := Badge("مالك موثوق 100%", "bg-green-100 text-green-700", "BadgeCheck")
  const VerifiedOwnerBadge := Badge("مالك موثق", "bg-blue-100 text-blue-700", "CheckCircle")
  const FlaggedOwnerBadge := Badge("تنبيه: تقييمات سلبية", "bg-red-100 text-red-700", "AlertTriangle")

  /** getOwnerBadge: the new-owner badge without statistics or reviews, otherwise the
      badge the statistics name. */
  function OwnerBadgeFor(stats: Option<OwnerStats>): (b: Badge)
    ensures b == NewOwnerBadge <==> stats.None? || stats.value.totalReviews == 0 || stats.value.badge == New
    ensures stats.Some? && stats.value.totalReviews != 0 ==>
              (stats.value.badge == Trusted <==> b == TrustedOwnerBadge) &&
              (stats.value.badge == Verified <==> b == VerifiedOwnerBadge) &&
              (stats.value.badge == Flagged <==> b == FlaggedOwnerBadge)
  {
    if stats.None? || stats.value.totalReviews == 0 then NewOwnerBadge
    else match stats.value.badge
      case Trusted => TrustedOwnerBadge
      case Verified => VerifiedOwnerBadge
      case Flagged => FlaggedOwnerBadge
      case New => NewOwnerBadge
  }

  /** The fully trusted badge uses the same words and colours as the recommendation's
      fully trusted phrase and the top score band. */
  lemma TrustedBadgeMatchesTopBand()
    ensures TrustedOwnerBadge.text == FullyTrustedPhrase
    ensures TrustedOwnerBadge.color == ScoreBgColor(90)
  {
  }
}

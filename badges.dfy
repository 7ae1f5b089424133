/**
 * The badge list of the badges page (src/pages/BadgesPage.tsx): the stored
 * badges followed by one generated badge per challenge topic and duration,
 * each marked with the date the user earned it, then split into earned and
 * available badges.
 */
module Badges {
  import opened Js

  datatype Badge = Badge(
    id: string, name: string, description: string, imageUrl: string, category: string,
    earnedAt: Option<string>)

  /** A `user_badges` row as the page selects it. */
  datatype UserBadge = UserBadge(badgeId: string, earnedAt: Option<string>)

  const Topics: seq<string> :=
    ["Coding Skills", "Fitness", "Health and Wellness", "Mindfulness", "Productivity", "Relationships"]
  const Durations: seq<nat> := [30, 60, 100]

  /** `topic.toLowerCase().replace(/ /g, sep)` */
  function Slug(topic: string, sep: char): string {
    ReplaceAll(ToLower(topic), ' ', sep)
  }

  /** The badge generated for one topic and duration: not yet earned, its id the category
      between the prefix and the duration, and its name led by the duration in decimal.
      BadgeFields says what the category is. */
  function ChallengeBadge(topic: string, duration: nat): (r: Badge)
    ensures NamedFor(r, topic, duration)
  {
    var d := NatToString(duration);
    Badge("challenge-" + Slug(topic, '-') + "-" + d,
          d + "-Day " + topic + " Challenge",
          "Complete the " + d + "-day " + topic + " challenge.",
          "/all_challenges_cards/" + ReplaceAll(topic, ' ', '_') + "_Cards/" + Slug(topic, '_')
            + "_" + d + "days.html",
          Slug(topic, '-'),
          None)
  }

  /** A slug has no spaces, reads back as the lower-cased topic when the separator is
      turned back into spaces, and equals the lower-cased underscore form when the
      separator is '_'. */
  lemma SlugRoundTrip(topic: string, sep: char)
    requires sep != ' ' && sep !in topic && !('A' <= sep <= 'Z') && !('a' <= sep <= 'z')
    ensures ' ' !in Slug(topic, sep)
    ensures ReplaceAll(Slug(topic, sep), sep, ' ') == ToLower(topic)
    ensures Slug(topic, sep) == ToLower(ReplaceAll(topic, ' ', sep))
  {
    var s := Slug(topic, sep);
    assert forall i :: 0 <= i < |s| ==> s[i] != ' ';
    var back := ReplaceAll(s, sep, ' ');
    assert forall i :: 0 <= i < |topic| ==> back[i] == ToLower(topic)[i];
    var other := ToLower(ReplaceAll(topic, ' ', sep));
    assert forall i :: 0 <= i < |topic| ==> other[i] == s[i];
  }

  /** Each generated badge's id is its category between the prefix and the duration, its
      category and file stem are the lower-cased topic with spaces replaced, and it is not
      earned. */
  lemma BadgeFields(topic: string, duration: nat)
    requires '-' !in topic && '_' !in topic
    ensures var b := ChallengeBadge(topic, duration);
            && b.id == "challenge-" + b.category + "-" + IntToString(duration)
            && ReplaceAll(b.category, '-', ' ') == ToLower(topic)
            && b.imageUrl == "/all_challenges_cards/" + ReplaceAll(topic, ' ', '_') + "_Cards/"
                             + ToLower(ReplaceAll(topic, ' ', '_')) + "_" + IntToString(duration)
                             + "days.html"
            && b.earnedAt.None?
  {
    SlugRoundTrip(topic, '-');
    SlugRoundTrip(topic, '_');
  }

  /** A generated badge for the topic and duration: not earned, its id the category between
      the prefix and the duration, and its name led by the duration in decimal. */
  predicate NamedFor(b: Badge, topic: string, duration: nat) {
    && b.earnedAt.None?
    && b.id == "challenge-" + b.category + "-" + IntToString(duration)
    && b.name == IntToString(duration) + "-Day " + topic + " Challenge"
  }

  /** The badges pushed for one topic, one per duration in order. */
  function ForTopic(topic: string, durations: seq<nat>): (r: seq<Badge>)
    ensures |r| == |durations|
    ensures forall d :: 0 <= d < |durations| ==> r[d] == ChallengeBadge(topic, durations[d])
  {
    seq(|durations|, d requires 0 <= d < |durations| => ChallengeBadge(topic, durations[d]))
  }

  /** The badges pushed for a list of topics: topic-major, duration-minor. */
  function Generated(topics: seq<string>, durations: seq<nat>): seq<Badge>
    decreases |topics|
  {
    if topics == [] then []
    else Generated(topics[..|topics| - 1], durations) + ForTopic(topics[|topics| - 1], durations)
  }

  /** The badges the page generates. */
  function ChallengeBadges(): seq<Badge> {
    Generated(Topics, Durations)
  }

  /** A position below n * w is row i / w, column i % w of an n-by-w grid. */
  lemma GridPosition(i: nat, w: nat, n: nat) returns (row: nat, column: nat)
    requires 0 < w && i < n * w
    ensures row < n && column < w && i == row * w + column
  {
    row, column := i / w, i % w;
    if row >= n {
      MulMono(n, row, w);
    }
  }

  /** One badge per topic and duration, the badge for topic t and duration d at
      position t * |durations| + d. */
  lemma GeneratedIndex(topics: seq<string>, durations: seq<nat>, t: nat, d: nat)
    requires t < |topics| && d < |durations|
    ensures |Generated(topics, durations)| == |topics| * |durations|
    ensures t * |durations| + d < |Generated(topics, durations)|
    ensures Generated(topics, durations)[t * |durations| + d] == ChallengeBadge(topics[t], durations[d])
  {
    GeneratedLength(topics, durations);
    GeneratedAt(topics, durations, t, d);
  }

  /** The block of topic t sits at offset t * |durations|. */
  lemma {:induction false} GeneratedAt(topics: seq<string>, durations: seq<nat>, t: nat, d: nat)
    requires t < |topics| && d < |durations|
    ensures t * |durations| + d < |Generated(topics, durations)|
    ensures Generated(topics, durations)[t * |durations| + d] == ForTopic(topics[t], durations)[d]
  {
    var n := |topics| - 1;
    var g := Generated(topics[..n], durations);
    var k := t * |durations| + d;
    GeneratedSplit(topics, durations);
    if t == n {
      GeneratedLength(topics[..n], durations);
      assert k == |g| + d;
      AppendedAt(g, ForTopic(topics[n], durations), d);
    } else {
      GeneratedAt(topics[..n], durations, t, d);
      assert k < |g|;
      assert (g + ForTopic(topics[n], durations))[k] == g[k];
    }
  }

  lemma GeneratedSplit(topics: seq<string>, durations: seq<nat>)
    requires topics != []
    ensures Generated(topics, durations)
            == Generated(topics[..|topics| - 1], durations) + ForTopic(topics[|topics| - 1], durations)
  {
  }

  lemma AppendedAt(g: seq<Badge>, f: seq<Badge>, d: nat)
    requires d < |f|
    ensures (g + f)[|g| + d] == f[d]
  {
  }

  lemma {:induction false} GeneratedLength(topics: seq<string>, durations: seq<nat>)
    ensures |Generated(topics, durations)| == |topics| * |durations|
    decreases |topics|
  {
    if topics != [] {
      GeneratedLength(topics[..|topics| - 1], durations);
      assert |topics| * |durations| == (|topics| - 1) * |durations| + |durations|;
    }
  }

  /** The nested `forEach` loops that push the generated badges. */
  method GenerateChallengeBadges(topics: seq<string>, durations: seq<nat>) returns (r: seq<Badge>)
    ensures r == Generated(topics, durations)
  {
    r := [];
    var t := 0;
    while t < |topics|
      invariant 0 <= t <= |topics|
      invariant r == Generated(topics[..t], durations)
    {
      var d := 0;
      while d < |durations|
        invariant 0 <= d <= |durations|
        invariant r == Generated(topics[..t], durations) + ForTopic(topics[t], durations[..d])
      {
        assert ForTopic(topics[t], durations[..d + 1])
            == ForTopic(topics[t], durations[..d]) + [ChallengeBadge(topics[t], durations[d])];
        r := r + [ChallengeBadge(topics[t], durations[d])];
        d := d + 1;
      }
      assert durations[..d] == durations;
      assert topics[..t + 1][..t] == topics[..t];
      t := t + 1;
    }
    assert topics[..t] == topics;
  }

  // ---------------------------------------------------------------------------
  // Distinct ids
  // ---------------------------------------------------------------------------

  const IdPrefix: string := "challenge-"

  /** The first character after the prefix is the lower-cased first letter of the topic. */
  lemma IdLetter(topic: string, duration: nat)
    requires |topic| > 0 && topic[0] != ' '
    ensures |ChallengeBadge(topic, duration).id| > |IdPrefix|
    ensures ChallengeBadge(topic, duration).id[|IdPrefix|] == LowerChar(topic[0])
  {
    var s := Slug(topic, '-');
    assert |s| == |topic| && s[0] == LowerChar(topic[0]);
    var id := ChallengeBadge(topic, duration).id;
    assert id == IdPrefix + (s + "-" + NatToString(duration));
  }

  /** One topic with two durations: the ids differ in the duration digits. */
  lemma SameTopicIds(topic: string, d1: nat, d2: nat)
    requires d1 != d2
    ensures ChallengeBadge(topic, d1).id != ChallengeBadge(topic, d2).id
  {
    var p := IdPrefix + Slug(topic, '-') + "-";
    var a, b := NatToString(d1), NatToString(d2);
    assert ChallengeBadge(topic, d1).id == p + a;
    assert ChallengeBadge(topic, d2).id == p + b;
    assert a == (p + a)[|p|..];
    assert b == (p + b)[|p|..];
  }

  /** Topics whose first letters differ once lower-cased, and distinct durations: the
      badges of two different (topic, duration) pairs have different ids. */
  lemma PairIdsDistinct(topics: seq<string>, durations: seq<nat>, t1: nat, d1: nat, t2: nat, d2: nat)
    requires forall t :: 0 <= t < |topics| ==> |topics[t]| > 0 && topics[t][0] != ' '
    requires forall t1, t2 :: 0 <= t1 < t2 < |topics| ==>
               LowerChar(topics[t1][0]) != LowerChar(topics[t2][0])
    requires forall d1, d2 :: 0 <= d1 < d2 < |durations| ==> durations[d1] != durations[d2]
    requires t1 < |topics| && t2 < |topics| && d1 < |durations| && d2 < |durations|
    requires t1 != t2 || d1 != d2
    ensures ChallengeBadge(topics[t1], durations[d1]).id != ChallengeBadge(topics[t2], durations[d2]).id
  {
    if t1 == t2 {
      SameTopicIds(topics[t1], durations[d1], durations[d2]);
    } else {
      IdLetter(topics[t1], durations[d1]);
      IdLetter(topics[t2], durations[d2]);
    }
  }

  /** ... and so the generated list has pairwise distinct ids. */
  lemma GeneratedIdsDistinct(topics: seq<string>, durations: seq<nat>, i: nat, j: nat)
    requires forall t :: 0 <= t < |topics| ==> |topics[t]| > 0 && topics[t][0] != ' '
    requires forall t1, t2 :: 0 <= t1 < t2 < |topics| ==>
               LowerChar(topics[t1][0]) != LowerChar(topics[t2][0])
    requires forall d1, d2 :: 0 <= d1 < d2 < |durations| ==> durations[d1] != durations[d2]
    requires i < j < |topics| * |durations|
    ensures |Generated(topics, durations)| == |topics| * |durations|
    ensures Generated(topics, durations)[i].id != Generated(topics, durations)[j].id
  {
    var w := |durations|;
    var ti, di := GridPosition(i, w, |topics|);
    var tj, dj := GridPosition(j, w, |topics|);
    GeneratedIndex(topics, durations, ti, di);
    GeneratedIndex(topics, durations, tj, dj);
    PairIdsDistinct(topics, durations, ti, di, tj, dj);
  }

  /** The page's six topics start with six different letters; its durations differ. */
  lemma PageListsDistinct()
    ensures forall t :: 0 <= t < |Topics| ==> |Topics[t]| > 0 && Topics[t][0] != ' '
    ensures forall t1, t2 :: 0 <= t1 < t2 < |Topics| ==>
              LowerChar(Topics[t1][0]) != LowerChar(Topics[t2][0])
    ensures forall d1, d2 :: 0 <= d1 < d2 < |Durations| ==> Durations[d1] != Durations[d2]
  {
  }

  /** The 18 generated badges have pairwise distinct ids. */
  lemma ChallengeIdsDistinct(i: nat, j: nat)
    requires i < j < 18
    ensures |ChallengeBadges()| == 18
    ensures ChallengeBadges()[i].id != ChallengeBadges()[j].id
  {
    PageListsDistinct();
    GeneratedIdsDistinct(Topics, Durations, i, j);
  }

  // ---------------------------------------------------------------------------
  // Earned dates and the earned / available split
  // ---------------------------------------------------------------------------

  function MatchesId(id: string): UserBadge -> bool {
    (ub: UserBadge) => ub.badgeId == id
  }

  /** `userBadges.find(ub => ub.badge_id === id)?.earned_at || null` */
  function EarnedAt(userBadges: seq<UserBadge>, id: string): (r: Option<string>)
    ensures r.Some? ==> r.value != ""
    ensures r.Some? <==> exists i :: 0 <= i < |userBadges| && userBadges[i].badgeId == id
                                    && Truthy(userBadges[i].earnedAt)
                                    && forall j :: 0 <= j < i ==> userBadges[j].badgeId != id
  {
    var found := Find(userBadges, MatchesId(id));
    if found.Some? && Truthy(found.value.earnedAt) then found.value.earnedAt else None
  }

  /** `[...allBadges, ...challengeBadges].map(b => ({ ...b, earned_at: ... }))` */
  function Combine(allBadges: seq<Badge>, generated: seq<Badge>, userBadges: seq<UserBadge>)
    : (r: seq<Badge>)
    ensures |r| == |allBadges| + |generated|
    ensures forall i :: 0 <= i < |r| ==>
              var b := (allBadges + generated)[i];
              r[i] == b.(earnedAt := EarnedAt(userBadges, b.id))
  {
    var src := allBadges + generated;
    seq(|src|, i requires 0 <= i < |src| => src[i].(earnedAt := EarnedAt(userBadges, src[i].id)))
  }

  function IsEarned(): Badge -> bool {
    (b: Badge) => Truthy(b.earnedAt)
  }

  function IsAvailable(): Badge -> bool {
    (b: Badge) => !Truthy(b.earnedAt)
  }

  /** `badges.filter(b => b.earned_at)` and `badges.filter(b => !b.earned_at)` */
  function Earned(badges: seq<Badge>): (r: seq<Badge>)
    ensures forall b :: b in r <==> b in badges && Truthy(b.earnedAt)
  {
    Filter(badges, IsEarned())
  }

  function Available(badges: seq<Badge>): (r: seq<Badge>)
    ensures forall b :: b in r <==> b in badges && !Truthy(b.earnedAt)
  {
    Filter(badges, IsAvailable())
  }

  /** Every badge lands in exactly one of the two lists. */
  lemma SplitIsPartition(badges: seq<Badge>)
    ensures |Earned(badges)| + |Available(badges)| == |badges|
    ensures multiset(Earned(badges)) + multiset(Available(badges)) == multiset(badges)
    ensures forall i :: 0 <= i < |Earned(badges)| ==> Earned(badges)[i].earnedAt.Some?
    ensures forall i :: 0 <= i < |Available(badges)| ==> !Truthy(Available(badges)[i].earnedAt)
  {
    FilterSplit(badges, IsEarned(), IsAvailable());
  }

  /** In the combined list a badge counts as earned exactly when some user badge names its
      id and the first such one carries a date. */
  lemma EarnedIffRecorded(allBadges: seq<Badge>, generated: seq<Badge>,
                          userBadges: seq<UserBadge>, i: nat)
    requires i < |allBadges| + |generated|
    ensures var b := Combine(allBadges, generated, userBadges)[i];
            var f := Find(userBadges, MatchesId(b.id));
            IsEarned()(b) <==> f.Some? && Truthy(f.value.earnedAt)
  {
  }

  class BadgeList {
    var badges: seq<Badge>
    var loading: bool

    constructor ()
      ensures badges == [] && loading
    {
      badges, loading := [], true;
    }

    /** `fetchBadges`: on success of both queries (None is a query error) the list becomes
        the combined list; on an error it stays as it was. Loading ends either way. */
    method FetchBadges(userBadges: Option<seq<UserBadge>>, allBadges: Option<seq<Badge>>)
      modifies this
      ensures !loading
      ensures userBadges.None? || allBadges.None? ==> badges == old(badges)
      ensures userBadges.Some? && allBadges.Some? ==>
                badges == Combine(allBadges.value, ChallengeBadges(), userBadges.value)
      ensures userBadges.Some? && allBadges.Some? ==>
                |badges| == |allBadges.value| + |Topics| * |Durations|
                && badges[..|allBadges.value|] ==
                   Combine(allBadges.value, [], userBadges.value)
    {
      if userBadges.Some? && allBadges.Some? {
        var generated := GenerateChallengeBadges(Topics, Durations);
        badges := Combine(allBadges.value, generated, userBadges.value);
        GeneratedLength(Topics, Durations);
        assert allBadges.value + [] == allBadges.value;
      }
      loading := false;
    }
  }
}

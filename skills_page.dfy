/** The skill browser: client/src/pages/Skills.tsx. The four filters of `applyFilters`
    and the transform of the offerings API rows into display rows.

    Ratings are held in tenths of a star (4.5 stars is 45). */
module SkillsPage {
  import opened Strings
  import opened Wrappers
  import opened Lists

  /** One row of the skill list (`SkillDisplay`). */
  datatype SkillDisplay = SkillDisplay(
    id: string,
    title: string,
    skillName: string,
    category: string,
    description: string,
    experienceLevel: string,
    creditsPerSession: int,
    sessionDuration: string,
    totalSessions: int,
    availableDays: seq<string>,
    availableTimeSlots: seq<string>,
    prerequisites: string,
    totalCredits: int,
    rating: int,
    reviewCount: int,
    teacherName: string)

  // ---------------------------------------------------------------------------
  // The four filters

  const AllCategories := "All Categories"
  const AnyRating := "Any Rating"
  const AnyCredits := "Any Credits"

  /** The search box: the lower-cased query occurs in the lower-cased name, title,
      category or teacher name. */
  predicate MatchesQuery(skill: SkillDisplay, query: string) {
    var q := ToLower(query);
    || Contains(ToLower(skill.skillName), q)
    || Contains(ToLower(skill.title), q)
    || Contains(ToLower(skill.category), q)
    || Contains(ToLower(skill.teacherName), q)
  }

  /** `minRating` for a chosen rating label, in tenths: 5, 4.5, and 4 for anything else.
      Every threshold lies between 4 and 5 stars. */
  function MinRating(rating: string): (r: int)
    ensures 40 <= r <= 50
  {
    if rating == "5 Stars Only" then 50 else if rating == "4.5+ Stars" then 45 else 40
  }

  /** The credit bucket for a chosen credits label; any other label keeps everything. */
  predicate InCreditBucket(credits: int, bucket: string) {
    if bucket == "1-2 Credits" then credits <= 2
    else if bucket == "3-5 Credits" then 3 <= credits <= 5
    else if bucket == "5+ Credits" then credits >= 5
    else true
  }

  /** The four filters as the test each skill must pass, with a filter left at its
      default ("", "All Categories", "Any Rating", "Any Credits") passing everything. */
  predicate Keeps(skill: SkillDisplay, query: string, category: string, rating: string, credits: string) {
    && (query == "" || MatchesQuery(skill, query))
    && (category == AllCategories || skill.category == category)
    && (rating == AnyRating || skill.rating >= MinRating(rating))
    && InCreditBucket(skill.creditsPerSession, credits)
  }

  function QueryTest(query: string): SkillDisplay -> bool {
    (skill: SkillDisplay) => MatchesQuery(skill, query)
  }

  function CategoryTest(category: string): SkillDisplay -> bool {
    (skill: SkillDisplay) => skill.category == category
  }

  function RatingTest(minRating: int): SkillDisplay -> bool {
    (skill: SkillDisplay) => skill.rating >= minRating
  }

  function CreditsTest(bucket: string): SkillDisplay -> bool {
    (skill: SkillDisplay) => InCreditBucket(skill.creditsPerSession, bucket)
  }

  /** The filters of the first k passes combined (k = 0..4). */
  function KeepsUpTo(k: nat, query: string, category: string, rating: string, credits: string): SkillDisplay -> bool {
    (skill: SkillDisplay) =>
      && (k < 1 || query == "" || MatchesQuery(skill, query))
      && (k < 2 || category == AllCategories || skill.category == category)
      && (k < 3 || rating == AnyRating || skill.rating >= MinRating(rating))
      && (k < 4 || InCreditBucket(skill.creditsPerSession, credits))
  }

  /** `applyFilters(query, category, rating, credits)`: start from every skill and
      narrow the list by each active filter in turn. The result is exactly the skills,
      in their order, that pass all four tests. */
  method ApplyFilters(skills: seq<SkillDisplay>, query: string, category: string, rating: string, credits: string)
    returns (filtered: seq<SkillDisplay>)
    ensures filtered == Filter(skills, KeepsUpTo(4, query, category, rating, credits))
    ensures forall skill :: skill in filtered <==> skill in skills && Keeps(skill, query, category, rating, credits)
  {
    QueryPass(skills, query, category, rating, credits);
    CategoryPass(skills, query, category, rating, credits);
    RatingPass(skills, query, category, rating, credits);
    filtered := skills;
    if query != "" {
      filtered := Filter(filtered, QueryTest(query));
    }
    if category != AllCategories {
      filtered := Filter(filtered, CategoryTest(category));
    }
    if rating != AnyRating {
      var minRating := MinRating(rating);
      filtered := Filter(filtered, RatingTest(minRating));
    }
    filtered := FilterCredits(filtered, credits);
    FilterFilter(skills, KeepsUpTo(3, query, category, rating, credits), CreditsTest(credits),
                 KeepsUpTo(4, query, category, rating, credits));
  }

  /** The credits pass of `applyFilters`: one bucket per known label, no filtering for
      "Any Credits" or an unknown label. */
  method FilterCredits(skills: seq<SkillDisplay>, credits: string) returns (filtered: seq<SkillDisplay>)
    ensures filtered == Filter(skills, CreditsTest(credits))
  {
    filtered := skills;
    if credits != AnyCredits {
      if credits == "1-2 Credits" {
        filtered := Filter(filtered, CreditsTest(credits));
      } else if credits == "3-5 Credits" {
        filtered := Filter(filtered, CreditsTest(credits));
      } else if credits == "5+ Credits" {
        filtered := Filter(filtered, CreditsTest(credits));
      } else {
        FilterAll(filtered, CreditsTest(credits));
      }
    } else {
      FilterAll(filtered, CreditsTest(credits));
    }
  }

  /** The search pass narrows every skill to those passing the first test. */
  lemma QueryPass(skills: seq<SkillDisplay>, query: string, category: string, rating: string, credits: string)
    ensures query != "" ==> Filter(skills, QueryTest(query)) == Filter(skills, KeepsUpTo(1, query, category, rating, credits))
    ensures query == "" ==> skills == Filter(skills, KeepsUpTo(1, query, category, rating, credits))
  {
    if query != "" {
      FilterSame(skills, QueryTest(query), KeepsUpTo(1, query, category, rating, credits));
    } else {
      FilterAll(skills, KeepsUpTo(1, query, category, rating, credits));
    }
  }

  /** The category pass adds the second test. */
  lemma CategoryPass(skills: seq<SkillDisplay>, query: string, category: string, rating: string, credits: string)
    ensures var before := Filter(skills, KeepsUpTo(1, query, category, rating, credits));
            var after := Filter(skills, KeepsUpTo(2, query, category, rating, credits));
            (category != AllCategories ==> Filter(before, CategoryTest(category)) == after)
            && (category == AllCategories ==> before == after)
  {
    if category != AllCategories {
      FilterFilter(skills, KeepsUpTo(1, query, category, rating, credits), CategoryTest(category),
                   KeepsUpTo(2, query, category, rating, credits));
    } else {
      FilterSame(skills, KeepsUpTo(1, query, category, rating, credits), KeepsUpTo(2, query, category, rating, credits));
    }
  }

  /** The rating pass adds the third test. */
  lemma RatingPass(skills: seq<SkillDisplay>, query: string, category: string, rating: string, credits: string)
    ensures var before := Filter(skills, KeepsUpTo(2, query, category, rating, credits));
            var after := Filter(skills, KeepsUpTo(3, query, category, rating, credits));
            (rating != AnyRating ==> Filter(before, RatingTest(MinRating(rating))) == after)
            && (rating == AnyRating ==> before == after)
  {
    if rating != AnyRating {
      FilterFilter(skills, KeepsUpTo(2, query, category, rating, credits), RatingTest(MinRating(rating)),
                   KeepsUpTo(3, query, category, rating, credits));
    } else {
      FilterSame(skills, KeepsUpTo(2, query, category, rating, credits), KeepsUpTo(3, query, category, rating, credits));
    }
  }

  /** The filters only remove entries: the result is an order-preserving sub-list. */
  lemma FilteredIsSubsequence(skills: seq<SkillDisplay>, query: string, category: string, rating: string, credits: string)
    ensures IsSubsequence(Filter(skills, KeepsUpTo(4, query, category, rating, credits)), skills)
  {
    FilterIsSubsequence(skills, KeepsUpTo(4, query, category, rating, credits));
  }

  /** With every filter at its default the whole list is shown. */
  lemma DefaultsKeepAll(skills: seq<SkillDisplay>)
    ensures Filter(skills, KeepsUpTo(4, "", AllCategories, AnyRating, AnyCredits)) == skills
  {
    FilterAll(skills, KeepsUpTo(4, "", AllCategories, AnyRating, AnyCredits));
  }

  /** Filtering the shown list again with the same settings changes nothing. */
  lemma FiltersIdempotent(skills: seq<SkillDisplay>, query: string, category: string, rating: string, credits: string)
    ensures var keep := KeepsUpTo(4, query, category, rating, credits);
            Filter(Filter(skills, keep), keep) == Filter(skills, keep)
  {
    FilterIdempotent(skills, KeepsUpTo(4, query, category, rating, credits));
  }

  /** One pass of `applyFilters` as a test, passing everything at its default. */
  function QueryStage(query: string): SkillDisplay -> bool {
    (skill: SkillDisplay) => query == "" || MatchesQuery(skill, query)
  }

  function CategoryStage(category: string): SkillDisplay -> bool {
    (skill: SkillDisplay) => category == AllCategories || skill.category == category
  }

  function RatingStage(rating: string): SkillDisplay -> bool {
    (skill: SkillDisplay) => rating == AnyRating || skill.rating >= MinRating(rating)
  }

  /** The order of the passes does not matter: running them last to first gives the
      same list. */
  lemma PassesInReverse(skills: seq<SkillDisplay>, query: string, category: string, rating: string, credits: string)
    ensures Filter(Filter(Filter(Filter(skills, CreditsTest(credits)), RatingStage(rating)), CategoryStage(category)), QueryStage(query))
         == Filter(skills, KeepsUpTo(4, query, category, rating, credits))
  {
    var p1 := (skill: SkillDisplay) => CreditsTest(credits)(skill) && RatingStage(rating)(skill);
    var p2 := (skill: SkillDisplay) => p1(skill) && CategoryStage(category)(skill);
    var p3 := (skill: SkillDisplay) => p2(skill) && QueryStage(query)(skill);
    FilterFilter(skills, CreditsTest(credits), RatingStage(rating), p1);
    FilterFilter(skills, p1, CategoryStage(category), p2);
    FilterFilter(skills, p2, QueryStage(query), p3);
    FilterSame(skills, p3, KeepsUpTo(4, query, category, rating, credits));
  }

  /** The search ignores case in the query. */
  lemma QueryIgnoresCase(skill: SkillDisplay, query: string)
    ensures MatchesQuery(skill, ToLower(query)) == MatchesQuery(skill, query)
  {
    ToLowerIdempotent(query);
  }

  /** The search finds a skill by any part of its name, whatever the case. */
  lemma NameFragmentMatches(skill: SkillDisplay, query: string, k: nat)
    requires OccursAt(ToLower(skill.skillName), ToLower(query), k)
    ensures MatchesQuery(skill, query)
  {
    ContainsAt(ToLower(skill.skillName), ToLower(query), k);
  }

  /** The buckets overlap at 5: a 5-credit skill is in both "3-5" and "5+", while 1-2 and
      3-5 are disjoint. */
  lemma CreditBuckets(c: int)
    ensures c == 5 ==> InCreditBucket(c, "3-5 Credits") && InCreditBucket(c, "5+ Credits")
    ensures !(InCreditBucket(c, "1-2 Credits") && InCreditBucket(c, "3-5 Credits"))
    ensures InCreditBucket(c, "3-5 Credits") && InCreditBucket(c, "5+ Credits") ==> c == 5
  {
  }

  // ---------------------------------------------------------------------------
  // The API rows

  /** An offering as the list endpoint returns it; the optional fields may be missing. */
  datatype ApiRow = ApiRow(
    id: Option<string>,
    skillName: string,
    category: string,
    description: string,
    experienceLevel: string,
    creditsPerSession: int,
    sessionDuration: string,
    totalSessions: int,
    availableDays: seq<string>,
    availableTimeSlots: seq<string>,
    prerequisites: string,
    totalCredits: int,
    rating: Option<int>,
    reviewCount: Option<int>,
    teacherName: Option<string>)

  /** `x || fallback` for an optional string: a missing or empty value gives the fallback.
      The result is the value or the fallback, a present value wins, and a non-empty
      fallback guarantees a non-empty result. */
  function OrString(x: Option<string>, fallback: string): (r: string)
    ensures r == fallback || x == Some(r)
    ensures x.Some? && x.value != "" ==> r == x.value
    ensures r == "" ==> fallback == ""
  {
    if x.Some? && x.value != "" then x.value else fallback
  }

  /** `x || 0` for an optional number: a present number is kept, and anything other
      than 0 comes from the row. */
  function OrZero(x: Option<int>): (r: int)
    ensures x.Some? ==> r == x.value
    ensures r != 0 ==> x == Some(r)
  {
    if x.Some? then x.value else 0
  }

  /** The transform inside `getSkills`. */
  function TransformRow(row: ApiRow): (r: SkillDisplay)
    ensures r.title == row.skillName && r.skillName == row.skillName
    ensures r.id == OrString(row.id, "")
    ensures r.teacherName != ""
    ensures r.teacherName == OrString(row.teacherName, "Anonymous")
    ensures r.rating == OrZero(row.rating) && r.reviewCount == OrZero(row.reviewCount)
    ensures r.category == row.category && r.creditsPerSession == row.creditsPerSession
    ensures r.totalSessions == row.totalSessions && r.totalCredits == row.totalCredits
    ensures r.availableDays == row.availableDays && r.availableTimeSlots == row.availableTimeSlots
    ensures r.description == row.description && r.experienceLevel == row.experienceLevel
    ensures r.sessionDuration == row.sessionDuration && r.prerequisites == row.prerequisites
  {
    SkillDisplay(
      OrString(row.id, ""), row.skillName, row.skillName, row.category, row.description,
      row.experienceLevel, row.creditsPerSession, row.sessionDuration, row.totalSessions,
      row.availableDays, row.availableTimeSlots, row.prerequisites, row.totalCredits,
      OrZero(row.rating), OrZero(row.reviewCount), OrString(row.teacherName, "Anonymous"))
  }

  function TransformRows(rows: seq<ApiRow>): (r: seq<SkillDisplay>)
    ensures |r| == |rows|
    ensures forall i :: 0 <= i < |rows| ==> r[i] == TransformRow(rows[i])
  {
    if rows == [] then [] else [TransformRow(rows[0])] + TransformRows(rows[1..])
  }

  /** On a transformed row the title adds nothing to the search: it is the name. */
  lemma TitleAddsNothing(row: ApiRow, query: string)
    ensures var skill := TransformRow(row);
            var q := ToLower(query);
            MatchesQuery(skill, query) <==>
              Contains(ToLower(row.skillName), q) || Contains(ToLower(row.category), q)
              || Contains(ToLower(OrString(row.teacherName, "Anonymous")), q)
  {
  }

  /** What the rating filter means for a skill's rating: a 5-star skill passes every
      rating filter, a 4.5-star one is hidden only by "5 Stars Only", a 4-star one passes
      "Any Rating", "4+ Stars" and any unknown label and nothing else, and a skill under
      4 stars passes "Any Rating" alone. */
  lemma RatingThresholds(skill: SkillDisplay, rating: string)
    ensures skill.rating >= 50 ==> (rating == AnyRating || skill.rating >= MinRating(rating))
    ensures skill.rating == 45 ==>
              ((rating == AnyRating || skill.rating >= MinRating(rating)) <==> rating != "5 Stars Only")
    ensures skill.rating == 40 ==>
              ((rating == AnyRating || skill.rating >= MinRating(rating)) <==>
                 rating != "5 Stars Only" && rating != "4.5+ Stars")
    ensures skill.rating < 40 ==> ((rating == AnyRating || skill.rating >= MinRating(rating)) <==> rating == AnyRating)
  {
  }

  /** An offering with no rating yet is hidden by every rating filter. */
  lemma UnratedHiddenByRatingFilter(row: ApiRow, query: string, category: string, rating: string, credits: string)
    requires row.rating.None? && rating != AnyRating
    ensures !Keeps(TransformRow(row), query, category, rating, credits)
  {
  }
}

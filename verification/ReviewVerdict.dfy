/**
 What a look at a pull request says of a review request: stale, clean, findings, failed or pending.
 Times are numbers, 0 for none; what a comment's summary marker holds is given with it.
 */
module ReviewVerdict {
  import opened Basics

  /** What codex's summary marker states, once read. */
  datatype Summary = Summary(commit: string, status: string)

  datatype Item = Item(id: nat, actor: string, body: string, commitId: string, originalCommitId: string,
                       submittedAt: nat, createdAt: nat, updatedAt: nat, summary: Option<Summary>)

  datatype Config = Config(sha: string, actor: string, reviewBaseline: int, pullBaseline: int, issueBaseline: int,
                           failureBaseline: int, requestedAt: nat)

  /** What GitHub answers: the head before and after, and the three lists. */
  datatype World = World(head: string, headAfter: string, reviews: seq<Item>, pullComments: seq<Item>,
                         issues: seq<Item>)

  datatype Reason = Error | UsageLimit | MarkerFailed

  datatype Result =
    | StaleHead(current: string)
    | Clean(review: nat)
    | Findings(review: nat, comments: nat)
    | CleanComment(comment: nat)
    | Failed(reason: Reason, comment: nat)
    | Pending(reviews: nat, comments: nat, marker: string)

  const USAGE_LIMIT_LINK := "chatgpt.com/codex/cloud/settings/usage"

  // ---- one item -------------------------------------------------------------------------------

  predicate Contains(text: string, part: string) {
    exists i :: 0 <= i <= |text| && part <= text[i..]
  }

  function Flat(text: string): string { seq(|text|,
                                            i requires 0 <= i < |text| => if text[i] == '\n' then ' ' else text[i]) }

  function Short(sha: string): string { if |sha| < 10 then sha else sha[..10] }

  predicate Fresh(item: Item, baseline: int, requestedAt: nat, date: nat) {
    item.id > baseline && (requestedAt == 0 || date >= requestedAt)
  }

  predicate HasReviewMarker(text: string, sha: string) {
    var marker := "Reviewed commit:** `";
    Contains(text, marker + sha + "`") || Contains(text, marker + Short(sha) + "`")
  }

  predicate LinksHead(text: string, sha: string) { Contains(text, "/blob/" + Short(sha)) }

  predicate HasFinding(text: string, sha: string) {
    (exists d: char :: '0' <= d <= '9' && Contains(text, "![P" + [d] + " Badge]")) || LinksHead(text, sha)
  }

  predicate ReviewIsFor(item: Item, sha: string) {
    if item.commitId != "" then Short(sha) <= item.commitId
    else HasReviewMarker(Flat(item.body), sha) || LinksHead(Flat(item.body), sha)
  }

  function SummaryStatus(item: Item, sha: string): string {
    match item.summary
    case None => ""
    case Some(s) => if s.commit == "" || !(Short(sha) <= s.commit) then "" else s.status
  }

  predicate IsReview(c: Config, item: Item) {
    item.actor == c.actor && Fresh(item, c.reviewBaseline, c.requestedAt, item.submittedAt) && ReviewIsFor(item, c.sha)
  }

  predicate IsFinding(c: Config, item: Item) {
    && item.actor == c.actor && Fresh(item, c.pullBaseline, c.requestedAt, item.createdAt)
    && (Contains(Flat(item.body), c.sha) || Contains(Flat(item.body), Short(c.sha))
        || Short(c.sha) <= item.commitId || Short(c.sha) <= item.originalCommitId)
  }

  predicate IsClean(c: Config, item: Item) {
    && item.actor == c.actor && Fresh(item, c.issueBaseline, c.requestedAt, item.createdAt)
    && HasReviewMarker(Flat(item.body), c.sha)
  }

  predicate IsUsageLimit(item: Item) { Contains(Flat(item.body), USAGE_LIMIT_LINK) }

  predicate IsFailure(c: Config, item: Item) {
    && item.actor == c.actor && Fresh(item, c.failureBaseline, c.requestedAt, item.createdAt)
    && (Contains(Flat(item.body), "Something went wrong") || IsUsageLimit(item))
  }

  /** A summary edited since the request; it is edited in place, so its number says nothing. */
  predicate IsSummary(c: Config, item: Item) {
    item.actor == c.actor && c.requestedAt > 0 && item.updatedAt > c.requestedAt && SummaryStatus(item, c.sha) != ""
  }

  datatype Kind = Review | Finding | CleanSay | Failure | Edited | Above(baseline: int)

  predicate Is(k: Kind, c: Config, item: Item) {
    match k
    case Review => IsReview(c, item)
    case Finding => IsFinding(c, item)
    case CleanSay => IsClean(c, item)
    case Failure => IsFailure(c, item)
    case Edited => IsSummary(c, item)
    case Above(baseline) => item.id > baseline
  }

  // ---- the verdict, without regard to order ---------------------------------------------------

  ghost predicate Any(k: Kind, c: Config, items: seq<Item>) {
    exists i :: i in items && Is(k, c, i)
  }

  ghost predicate Newest(k: Kind, c: Config, items: seq<Item>, item: Item) {
    item in items && Is(k, c, item) && forall i :: i in items && Is(k, c, i) ==> i.id <= item.id
  }

  ghost predicate Latest(c: Config, items: seq<Item>, item: Item) {
    item in items && IsSummary(c, item) && forall i :: i in items && IsSummary(c, i) ==> i.updatedAt <= item.updatedAt
  }

  function Count(k: Kind, c: Config, items: seq<Item>): nat {
    if items == [] then 0
    else Count(k, c, items[..|items| - 1]) + if Is(k, c, items[|items| - 1]) then 1 else 0
  }

  /** The summary last edited; of several edited at once, any. */
  ghost predicate LastSummary(c: Config, items: seq<Item>, s: Option<Item>) {
    if Any(Edited, c, items) then s.Some? && Latest(c, items, s.value) else s.None?
  }

  function Marker(c: Config, s: Option<Item>): string {
    match s { case Some(item) => SummaryStatus(item, c.sha) case None => "" }
  }

  /** A fresh failure reply, or the summary when it says the review failed. */
  predicate Fails(c: Config, items: seq<Item>, s: Option<Item>, item: Item) {
    (item in items && IsFailure(c, item)) || (s == Some(item) && Marker(c, s) == "failed")
  }

  function WhyFailed(c: Config, item: Item): Reason {
    if IsFailure(c, item) then (if IsUsageLimit(item) then UsageLimit else Error) else MarkerFailed
  }

  ghost predicate FailedBy(c: Config, items: seq<Item>, s: Option<Item>, r: Result) {
    exists item :: Fails(c, items, s, item) && (forall i :: Fails(c, items, s, i) ==> i.id <= item.id) &&
      r == Failed(WhyFailed(c, item), item.id)
  }

  /** No verdict yet, unless something says it failed. */
  ghost predicate FailedOrPending(c: Config, w: World, s: Option<Item>, r: Result) {
    if exists item :: Fails(c, w.issues, s, item) then
      if w.headAfter != c.sha then r == StaleHead(w.headAfter) else FailedBy(c, w.issues, s, r)
    else
      r == Pending(Count(Above(c.reviewBaseline), c, w.reviews), Count(Above(c.issueBaseline), c, w.issues),
                   Marker(c, s))
  }

  ghost predicate ReviewDecides(c: Config, w: World, r: Result) {
    exists review :: Newest(Review, c, w.reviews, review) &&
      (var n := Count(Finding, c, w.pullComments);
       r == if n > 0 || HasFinding(Flat(review.body), c.sha) then Findings(review.id, n) else Clean(review.id))
  }

  /** The verdict on `w`, whatever order its lists are in. */
  ghost predicate Decides(c: Config, w: World, r: Result) {
    if w.head != c.sha then r == StaleHead(w.head)
    else if Any(Review, c, w.reviews) then
      if w.headAfter != c.sha then r == StaleHead(w.headAfter) else ReviewDecides(c, w, r)
    else if Any(CleanSay, c, w.issues) then
      if w.headAfter != c.sha then r == StaleHead(w.headAfter)
      else r.CleanComment? && exists item :: Newest(CleanSay, c, w.issues, item) && r.comment == item.id
    else exists s :: LastSummary(c, w.issues, s) && FailedOrPending(c, w, s, r)
  }

  predicate Distinct(items: seq<Item>) { forall i, j :: 0 <= i < j < |items| ==> items[i].id != items[j].id }

  ghost predicate DistinctEdits(c: Config, items: seq<Item>) {
    forall i, j :: i in items && j in items && IsSummary(c, i) && IsSummary(c, j) ==>
      i.updatedAt == j.updatedAt ==> i == j
  }

  ghost predicate Tidy(c: Config, w: World) {
    Distinct(w.reviews) && Distinct(w.pullComments) && Distinct(w.issues) && DistinctEdits(c, w.issues)
  }

  /** Nothing but what came after the baselines, and summaries edited since, tells the two apart. */
  ghost predicate SameNew(c: Config, w: World, w': World) {
    && w.head == w'.head && w.headAfter == w'.headAfter
    && (forall i: Item :: i.id > c.reviewBaseline ==> (i in w.reviews <==> i in w'.reviews))
    && (forall i: Item :: i.id > c.pullBaseline ==> (i in w.pullComments <==> i in w'.pullComments))
    && (forall i: Item :: i.id > c.issueBaseline || i.id > c.failureBaseline || IsSummary(c, i) ==>
          (i in w.issues <==> i in w'.issues))
  }

  // ---- only what is new decides, in any order -------------------------------------------------

  /** Two lists hold the same items of a kind. */
  ghost predicate Same(k: Kind, c: Config, a: seq<Item>, b: seq<Item>) {
    forall i: Item :: Is(k, c, i) ==> (i in a <==> i in b)
  }

  lemma SameKinds(c: Config, w: World, w': World)
    requires SameNew(c, w, w')
    ensures Same(Review, c, w.reviews, w'.reviews) && Same(Above(c.reviewBaseline), c, w.reviews, w'.reviews)
    ensures Same(Finding, c, w.pullComments, w'.pullComments)
    ensures Same(CleanSay, c, w.issues, w'.issues) && Same(Above(c.issueBaseline), c, w.issues, w'.issues)
    ensures Same(Failure, c, w.issues, w'.issues) && Same(Edited, c, w.issues, w'.issues)
  {
    hide Contains, HasReviewMarker, ReviewIsFor, IsUsageLimit, SummaryStatus;
  }

  lemma SameAny(k: Kind, c: Config, a: seq<Item>, b: seq<Item>)
    requires Same(k, c, a, b)
    ensures Any(k, c, a) <==> Any(k, c, b)
  {
    hide Is;
  }

  lemma OneNewest(k: Kind, c: Config, a: seq<Item>, b: seq<Item>, x: Item, y: Item)
    requires Same(k, c, a, b) && Distinct(a) && Newest(k, c, a, x) && Newest(k, c, b, y)
    ensures x == y
  {
    hide Is;
    assert y in a && x in b;
  }

  // ---- what each verdict says of the texts ------------------------------------------------------

  lemma {:induction false} CountNone(k: Kind, c: Config, items: seq<Item>)
    ensures Count(k, c, items) == 0 <==> forall i :: i in items ==> !Is(k, c, i)
  {
    hide Is;
    if items != [] {
      CountNone(k, c, items[..|items| - 1]);
      assert items == items[..|items| - 1] + [items[|items| - 1]];
    }
  }

  /** Posted since the request by the one asked. */
  predicate Answers(c: Config, item: Item, baseline: int, date: nat) {
    item.actor == c.actor && item.id > baseline && (c.requestedAt > 0 ==> date >= c.requestedAt)
  }

  /** A comment on the code that names the head, by its text or by the commit it hangs on. */
  predicate Names(sha: string, item: Item) {
    || Contains(Flat(item.body), sha) || (|sha| >= 10 && Contains(Flat(item.body), sha[..10]))
    || (|sha| >= 10 && (sha[..10] <= item.commitId || sha[..10] <= item.originalCommitId))
  }

  /** A text contains what stands somewhere in it. */
  lemma ContainsIff(text: string, part: string)
    ensures Contains(text, part) <==> exists a, b: string :: text == a + part + b
  {
    if i :| 0 <= i <= |text| && part <= text[i..] {
      assert text == text[..i] + part + text[i + |part|..];
    }
    if a: string, b: string :| text == a + part + b {
      assert text[|a|..] == part + b && 0 <= |a| <= |text|;
    }
  }

  /** A review is for a commit if it hangs on it; and where it hangs on none, if it marks it or links into it. */
  predicate ForHead(sha: string, item: Item)
    requires |sha| >= 10
  {
    if item.commitId != "" then sha[..10] <= item.commitId
    else
      || Contains(Flat(item.body), "Reviewed commit:** `" + sha + "`")
      || Contains(Flat(item.body), "Reviewed commit:** `" + sha[..10] + "`")
      || Contains(Flat(item.body), "/blob/" + sha[..10])
  }

  lemma ForHeadIff(sha: string, item: Item)
    requires |sha| >= 10
    ensures ReviewIsFor(item, sha) <==> ForHead(sha, item)
  {
    hide Contains, Flat;
  }

  /** A summary of the head, edited since the request, that says something. */
  predicate Summarises(c: Config, item: Item)
    requires |c.sha| >= 10
  {
    && item.actor == c.actor && item.updatedAt > c.requestedAt > 0 && item.summary.Some?
    && c.sha[..10] <= item.summary.value.commit && item.summary.value.status != ""
  }

  lemma SummarisesIff(c: Config, item: Item)
    requires |c.sha| >= 10
    ensures IsSummary(c, item) <==> Summarises(c, item)
    ensures IsSummary(c, item) ==> SummaryStatus(item, c.sha) == item.summary.value.status
  {}

  /** A pending verdict's marker is what the summary last edited says, and none exactly without one. */
  lemma MarkerSays(c: Config, w: World, r: Result)
    requires Decides(c, w, r) && r.Pending? && |c.sha| >= 10
    ensures r.marker == "" <==> forall i :: i in w.issues ==> !Summarises(c, i)
    ensures r.marker != "" ==>
              exists i :: i in w.issues && Summarises(c, i) && r.marker == i.summary.value.status
                          && forall j :: j in w.issues && Summarises(c, j) ==> j.updatedAt <= i.updatedAt
  {
    forall i ensures IsSummary(c, i) <==> Summarises(c, i) { SummarisesIff(c, i); }
    var s :| LastSummary(c, w.issues, s) && FailedOrPending(c, w, s, r);
    hide Summarises, IsSummary, FailedBy, Fails;
    if s.Some? {
      SummarisesIff(c, s.value);
      assert Latest(c, w.issues, s.value);
      assert Summarises(c, s.value) && s.value in w.issues;
      SaysSomething(c, s.value);
    } else {
      forall i | i in w.issues ensures !Summarises(c, i) { assert !Is(Edited, c, i); }
    }
  }

  lemma SaysSomething(c: Config, item: Item)
    requires |c.sha| >= 10 && Summarises(c, item)
    ensures item.summary.Some? && item.summary.value.status != ""
  {}

  /** A review decides: it answers the request, for this head, and is the newest that does. It is clean only if
      its text has no badge from P0 to P9 and no link into the head, and no comment on the code names the head;
      and it has findings only if one of them does. */
  lemma ReviewSays(c: Config, w: World, r: Result) returns (review: Item)
    requires Decides(c, w, r) && (r.Clean? || r.Findings?)
    ensures w.head == w.headAfter == c.sha
    ensures review in w.reviews && review.id == r.review
    ensures Answers(c, review, c.reviewBaseline, review.submittedAt)
    ensures |c.sha| >= 10 ==> ForHead(c.sha, review)
    ensures r.Clean? ==> forall d: char :: '0' <= d <= '9' ==> !Contains(Flat(review.body), "![P" + [d] + " Badge]")
    ensures r.Clean? && |c.sha| >= 10 ==> !Contains(Flat(review.body), "/blob/" + c.sha[..10])
    ensures r.Clean? ==>
              forall p :: p in w.pullComments && Answers(c, p, c.pullBaseline, p.createdAt) ==> !Names(c.sha, p)
    ensures r.Findings? && |c.sha| >= 10 ==>
              || (exists d: char :: '0' <= d <= '9' && Contains(Flat(review.body), "![P" + [d] + " Badge]"))
              || Contains(Flat(review.body), "/blob/" + c.sha[..10])
              || (exists p :: p in w.pullComments && Answers(c, p, c.pullBaseline, p.createdAt) && Names(c.sha, p))
  {
    assert Any(Review, c, w.reviews);
    review :| Newest(Review, c, w.reviews, review) &&
      (var n := Count(Finding, c, w.pullComments);
       r == if n > 0 || HasFinding(Flat(review.body), c.sha) then Findings(review.id, n) else Clean(review.id));
    CountNone(Finding, c, w.pullComments);
    if |c.sha| >= 10 { ForHeadIff(c.sha, review); }
    hide Contains, Flat;
    if r.Clean? {
      forall p | p in w.pullComments && Answers(c, p, c.pullBaseline, p.createdAt) ensures !Names(c.sha, p) {
        assert !Is(Finding, c, p);
      }
    } else if |c.sha| >= 10 && !HasFinding(Flat(review.body), c.sha) {
      var p :| p in w.pullComments && Is(Finding, c, p);
      assert Answers(c, p, c.pullBaseline, p.createdAt) && Names(c.sha, p);
    }
  }

  /** A comment says clean only where no review answers: one that answers the request and marks this head as
      reviewed. */
  lemma CommentSays(c: Config, w: World, r: Result) returns (item: Item)
    requires Decides(c, w, r) && r.CleanComment?
    ensures w.head == w.headAfter == c.sha
    ensures item in w.issues && item.id == r.comment && Answers(c, item, c.issueBaseline, item.createdAt)
    ensures |c.sha| >= 10 ==>
              || Contains(Flat(item.body), "Reviewed commit:** `" + c.sha + "`")
              || Contains(Flat(item.body), "Reviewed commit:** `" + c.sha[..10] + "`")
    ensures |c.sha| >= 10 ==>
              forall i :: i in w.reviews && Answers(c, i, c.reviewBaseline, i.submittedAt) ==> !ForHead(c.sha, i)
  {
    assert Any(CleanSay, c, w.issues) && !Any(Review, c, w.reviews);
    item :| Newest(CleanSay, c, w.issues, item) && r.comment == item.id;
    hide Contains, Flat, ReviewIsFor;
    forall i | i in w.reviews && Answers(c, i, c.reviewBaseline, i.submittedAt) && |c.sha| >= 10
      ensures !ForHead(c.sha, i)
    {
      ForHeadIff(c.sha, i);
      assert !Is(Review, c, i);
    }
  }

  /** A failure is a reply that answers the request and says so, or a summary edited since that says failed. */
  lemma FailureSays(c: Config, w: World, r: Result) returns (item: Item)
    requires Decides(c, w, r) && r.Failed?
    ensures w.head == w.headAfter == c.sha && item in w.issues && item.id == r.comment && item.actor == c.actor
    ensures r.reason != MarkerFailed ==> Answers(c, item, c.failureBaseline, item.createdAt)
    ensures r.reason == UsageLimit ==> Contains(Flat(item.body), USAGE_LIMIT_LINK)
    ensures r.reason == Error ==> Contains(Flat(item.body), "Something went wrong")
    ensures r.reason == MarkerFailed ==>
              && item.updatedAt > c.requestedAt > 0 && item.summary.Some? && item.summary.value.status == "failed"
              && (|c.sha| >= 10 ==> c.sha[..10] <= item.summary.value.commit)
  {
    hide Contains, Flat, LastSummary, FailedBy, Fails, Any;
    var s :| LastSummary(c, w.issues, s) && FailedOrPending(c, w, s, r);
    assert FailedBy(c, w.issues, s, r);
    item := WhoFailed(c, w.issues, s, r);
    SaysFailed(c, item);
  }

  lemma WhoFailed(c: Config, issues: seq<Item>, s: Option<Item>, r: Result) returns (item: Item)
    requires FailedBy(c, issues, s, r) && LastSummary(c, issues, s)
    ensures item in issues && r == Failed(WhyFailed(c, item), item.id)
    ensures IsFailure(c, item) || (IsSummary(c, item) && SummaryStatus(item, c.sha) == "failed")
  {
    hide IsFailure, IsSummary, SummaryStatus, WhyFailed;
    item :| Fails(c, issues, s, item) && (forall i :: Fails(c, issues, s, i) ==> i.id <= item.id) &&
      r == Failed(WhyFailed(c, item), item.id);
    if s.Some? { assert Latest(c, issues, s.value); }
  }

  lemma SaysFailed(c: Config, item: Item)
    requires IsFailure(c, item) || (IsSummary(c, item) && SummaryStatus(item, c.sha) == "failed")
    ensures var why := WhyFailed(c, item);
            && item.actor == c.actor && (why != MarkerFailed ==> Answers(c, item, c.failureBaseline, item.createdAt))
            && (why == UsageLimit ==> Contains(Flat(item.body), USAGE_LIMIT_LINK))
            && (why == Error ==> Contains(Flat(item.body), "Something went wrong"))
            && (why == MarkerFailed ==>
                && item.updatedAt > c.requestedAt > 0 && item.summary.Some? && item.summary.value.status == "failed"
                && (|c.sha| >= 10 ==> c.sha[..10] <= item.summary.value.commit))
  {
    hide Contains, Flat;
  }

  /** And nothing is pending where a review, a clean comment or a failing reply has answered. */
  lemma PendingSays(c: Config, w: World, r: Result, i: Item)
    requires Decides(c, w, r) && r.Pending?
    ensures w.head == c.sha
    ensures i in w.reviews && Answers(c, i, c.reviewBaseline, i.submittedAt) && |c.sha| >= 10 ==> !ForHead(c.sha, i)
    ensures i in w.issues && Answers(c, i, c.failureBaseline, i.createdAt) ==>
              !Contains(Flat(i.body), "Something went wrong") && !Contains(Flat(i.body), USAGE_LIMIT_LINK)
    ensures i in w.issues && Answers(c, i, c.issueBaseline, i.createdAt) ==>
              !Contains(Flat(i.body), "Reviewed commit:** `" + c.sha + "`")
  {
    hide Contains, Flat, ReviewIsFor;
    if |c.sha| >= 10 { ForHeadIff(c.sha, i); }
    assert i in w.reviews ==> !Is(Review, c, i);
    assert i in w.issues ==> !Is(CleanSay, c, i);
    var s :| LastSummary(c, w.issues, s) && FailedOrPending(c, w, s, r);
    assert !Fails(c, w.issues, s, i);
  }

  ghost function Those(k: Kind, c: Config, items: seq<Item>): set<Item> { set i | i in items && Is(k, c, i) }

  lemma OneMoreOfThem(k: Kind, c: Config, init: seq<Item>, last: Item)
    requires last !in init
    ensures |Those(k, c, init + [last])| == |Those(k, c, init)| + if Is(k, c, last) then 1 else 0
  {
    hide Is;
    if Is(k, c, last) {
      assert Those(k, c, init + [last]) == Those(k, c, init) + {last};
    } else {
      assert Those(k, c, init + [last]) == Those(k, c, init);
    }
  }

  lemma LastDiffers(items: seq<Item>)
    requires Distinct(items) && items != []
    ensures items[|items| - 1] !in items[..|items| - 1] && Distinct(items[..|items| - 1])
    ensures items == items[..|items| - 1] + [items[|items| - 1]]
  {}

  /** Of items that differ, counting them is counting the set of them. */
  lemma {:induction false} CountIsCardinality(k: Kind, c: Config, items: seq<Item>)
    requires Distinct(items)
    ensures Count(k, c, items) == |Those(k, c, items)|
  {
    hide Is, Distinct;
    if items == [] {
      assert Those(k, c, items) == {};
    } else {
      hide Those;
      LastDiffers(items);
      CountIsCardinality(k, c, items[..|items| - 1]);
      OneMoreOfThem(k, c, items[..|items| - 1], items[|items| - 1]);
    }
  }

  lemma SameCount(k: Kind, c: Config, a: seq<Item>, b: seq<Item>)
    requires Same(k, c, a, b) && Distinct(a) && Distinct(b)
    ensures Count(k, c, a) == Count(k, c, b)
  {
    hide Is;
    CountIsCardinality(k, c, a);
    CountIsCardinality(k, c, b);
    assert Those(k, c, a) == Those(k, c, b);
  }

  lemma SameLatest(c: Config, a: seq<Item>, b: seq<Item>, x: Item)
    requires Same(Edited, c, a, b)
    ensures Latest(c, a, x) <==> Latest(c, b, x)
  {
    hide IsSummary;
    assert forall i: Item :: IsSummary(c, i) <==> Is(Edited, c, i);
  }

  lemma OneSummary(c: Config, a: seq<Item>, b: seq<Item>, s: Option<Item>, s': Option<Item>)
    requires Same(Edited, c, a, b) && DistinctEdits(c, a) && LastSummary(c, a, s) && LastSummary(c, b, s')
    ensures s == s' && (s.Some? ==> s.value in a)
  {
    SameAny(Edited, c, a, b);
    hide Same, IsSummary, Any;
    if s'.Some? { SameLatest(c, a, b, s'.value); }
  }

  lemma SameFails(c: Config, a: seq<Item>, b: seq<Item>, s: Option<Item>, x: Item)
    requires Same(Failure, c, a, b) && (s.Some? ==> s.value in a)
    ensures Fails(c, a, s, x) <==> Fails(c, b, s, x)
    ensures Fails(c, a, s, x) ==> x in a
  {
    hide IsFailure, Marker;
    assert IsFailure(c, x) <==> Is(Failure, c, x);
  }

  lemma OneFailure(c: Config, a: seq<Item>, b: seq<Item>, s: Option<Item>, r: Result, r': Result)
    requires Same(Failure, c, a, b) && Distinct(a) && (s.Some? ==> s.value in a)
    requires FailedBy(c, a, s, r) && FailedBy(c, b, s, r')
    ensures r == r'
  {
    hide Same, Fails, WhyFailed;
    var x :| Fails(c, a, s, x) && (forall i :: Fails(c, a, s, i) ==> i.id <= x.id)
      && r == Failed(WhyFailed(c, x), x.id);
    var y :| Fails(c, b, s, y) && (forall i :: Fails(c, b, s, i) ==> i.id <= y.id)
      && r' == Failed(WhyFailed(c, y), y.id);
    SameFails(c, a, b, s, x);
    SameFails(c, a, b, s, y);
  }

  lemma OneReview(c: Config, w: World, w': World, r: Result, r': Result)
    requires Same(Review, c, w.reviews, w'.reviews)
    requires Same(Finding, c, w.pullComments, w'.pullComments) && Tidy(c, w) && Tidy(c, w')
    requires ReviewDecides(c, w, r) && ReviewDecides(c, w', r')
    ensures r == r'
  {
    hide Same, Distinct, DistinctEdits, Newest, HasFinding, Flat, Count;
    var x :| Newest(Review, c, w.reviews, x) &&
      (var n := Count(Finding, c, w.pullComments);
       r == if n > 0 || HasFinding(Flat(x.body), c.sha) then Findings(x.id, n) else Clean(x.id));
    var y :| Newest(Review, c, w'.reviews, y) &&
      (var n := Count(Finding, c, w'.pullComments);
       r' == if n > 0 || HasFinding(Flat(y.body), c.sha) then Findings(y.id, n) else Clean(y.id));
    OneNewest(Review, c, w.reviews, w'.reviews, x, y);
    SameCount(Finding, c, w.pullComments, w'.pullComments);
  }

  lemma OnePending(c: Config, w: World, w': World, s: Option<Item>, r: Result, r': Result)
    requires Tidy(c, w) && Tidy(c, w') && w.headAfter == w'.headAfter && (s.Some? ==> s.value in w.issues)
    requires Same(Failure, c, w.issues, w'.issues) && Same(Above(c.reviewBaseline), c, w.reviews, w'.reviews)
    requires Same(Above(c.issueBaseline), c, w.issues, w'.issues)
    requires FailedOrPending(c, w, s, r) && FailedOrPending(c, w', s, r')
    ensures r == r'
  {
    hide Same, Fails, FailedBy, Distinct, DistinctEdits, Count, Marker;
    forall x ensures Fails(c, w.issues, s, x) <==> Fails(c, w'.issues, s, x) {
      SameFails(c, w.issues, w'.issues, s, x);
    }
    if exists x :: Fails(c, w.issues, s, x) {
      if w.headAfter == c.sha { OneFailure(c, w.issues, w'.issues, s, r, r'); }
    } else {
      SameCount(Above(c.reviewBaseline), c, w.reviews, w'.reviews);
      SameCount(Above(c.issueBaseline), c, w.issues, w'.issues);
    }
  }

  /** Two looks that differ only in what was there when the baselines were taken, or in the order of
      their lists, give the same verdict. */
  lemma OnlyNewItemsDecide(c: Config, w: World, w': World, r: Result, r': Result)
    requires Tidy(c, w) && Tidy(c, w') && SameNew(c, w, w') && Decides(c, w, r) && Decides(c, w', r')
    ensures r == r'
  {
    SameKinds(c, w, w');
    SameAny(Review, c, w.reviews, w'.reviews);
    SameAny(CleanSay, c, w.issues, w'.issues);
    hide Same, Any, Newest, FailedOrPending, LastSummary, ReviewDecides, Distinct, DistinctEdits;
    if w.head != c.sha {
    } else if Any(Review, c, w.reviews) {
      if w.headAfter == c.sha { OneReview(c, w, w', r, r'); }
    } else if Any(CleanSay, c, w.issues) {
      if w.headAfter == c.sha {
        var x :| Newest(CleanSay, c, w.issues, x) && r.comment == x.id;
        var y :| Newest(CleanSay, c, w'.issues, y) && r'.comment == y.id;
        OneNewest(CleanSay, c, w.issues, w'.issues, x, y);
      }
    } else {
      var s :| LastSummary(c, w.issues, s) && FailedOrPending(c, w, s, r);
      var s' :| LastSummary(c, w'.issues, s') && FailedOrPending(c, w', s', r');
      OneSummary(c, w.issues, w'.issues, s, s');
      OnePending(c, w, w', s, r, r');
    }
  }

  /** In particular the order the lists come in is nothing to it. */
  lemma OrderDoesNotDecide(c: Config, w: World, w': World, r: Result, r': Result)
    requires Tidy(c, w) && w.head == w'.head && w.headAfter == w'.headAfter
    requires multiset(w.reviews) == multiset(w'.reviews) && multiset(w.pullComments) == multiset(w'.pullComments)
    requires multiset(w.issues) == multiset(w'.issues) && Decides(c, w, r) && Decides(c, w', r')
    ensures r == r'
  {
    hide Decides, IsSummary;
    Reordered(w.reviews, w'.reviews);
    Reordered(w.pullComments, w'.pullComments);
    Reordered(w.issues, w'.issues);
    OnlyNewItemsDecide(c, w, w', r, r');
  }

  lemma Reordered(a: seq<Item>, b: seq<Item>)
    requires multiset(a) == multiset(b) && Distinct(a)
    ensures Distinct(b) && forall i :: i in a <==> i in b
  {
    forall i ensures i in a <==> i in b { assert i in multiset(a) <==> i in multiset(b); }
    forall i, j | 0 <= i < j < |b| ensures b[i].id != b[j].id {
      if b[i].id == b[j].id {
        assert b[i] in a && b[j] in a && b[i] == b[j];
        Twice(b, i, j);
        Once(a, b[i]);
      }
    }
  }

  lemma Twice(b: seq<Item>, i: nat, j: nat)
    requires i < j < |b| && b[i] == b[j]
    ensures multiset(b)[b[i]] >= 2
  {
    assert b == b[..i] + [b[i]] + b[i + 1..j] + [b[j]] + b[j + 1..];
    assert multiset(b) ==
      multiset(b[..i]) + multiset([b[i]]) + multiset(b[i + 1..j]) + multiset([b[j]]) + multiset(b[j + 1..]);
  }

  lemma {:induction false} Once(a: seq<Item>, x: Item)
    requires Distinct(a)
    ensures multiset(a)[x] <= 1
  {
    if a != [] {
      var init, last := a[..|a| - 1], a[|a| - 1];
      assert a == init + [last];
      Once(init, x);
      if last == x { assert x !in init; }
    }
  }

  function MaxId(items: seq<Item>): nat {
    if items == [] then 0
    else
      var rest, last := MaxId(items[..|items| - 1]), items[|items| - 1].id;
      if last > rest then last else rest
  }

  lemma {:induction false} NoneAboveMax(items: seq<Item>)
    ensures forall i :: i in items ==> i.id <= MaxId(items)
  {
    if items != [] { NoneAboveMax(items[..|items| - 1]); }
  }

  // ---- there is a verdict, and without what was there it is the same --------------------------

  lemma {:induction false} MaxBy(items: seq<Item>, p: Item -> bool, key: Item -> nat) returns (x: Item)
    requires exists i :: i in items && p(i)
    ensures x in items && p(x) && forall i :: i in items && p(i) ==> key(i) <= key(x)
    decreases |items|
  {
    var init, last := items[..|items| - 1], items[|items| - 1];
    assert forall i :: i in items <==> i in init || i == last;
    if exists i :: i in init && p(i) {
      x := MaxBy(init, p, key);
      if p(last) && key(last) > key(x) { x := last; }
    } else {
      x := last;
    }
  }

  lemma SomeNewest(k: Kind, c: Config, items: seq<Item>) returns (x: Item)
    requires Any(k, c, items)
    ensures Newest(k, c, items, x)
  {
    hide Is;
    x := MaxBy(items, (i: Item) => Is(k, c, i), (i: Item) => i.id);
  }

  lemma SomeSummary(c: Config, items: seq<Item>) returns (s: Option<Item>)
    ensures LastSummary(c, items, s) && (s.Some? ==> s.value in items)
  {
    hide IsSummary;
    s := None;
    if Any(Edited, c, items) {
      var x := MaxBy(items, (i: Item) => Is(Edited, c, i), (i: Item) => i.updatedAt);
      s := Some(x);
    }
  }

  lemma SomeFailure(c: Config, items: seq<Item>, s: Option<Item>) returns (r: Result)
    requires (s.Some? ==> s.value in items) && exists i :: Fails(c, items, s, i)
    ensures FailedBy(c, items, s, r)
  {
    hide IsFailure, Marker, WhyFailed;
    assert forall i :: Fails(c, items, s, i) ==> i in items;
    hide Fails;
    var x := MaxBy(items, (i: Item) => Fails(c, items, s, i), (i: Item) => i.id);
    r := Failed(WhyFailed(c, x), x.id);
  }

  lemma SomeVerdict(c: Config, w: World) returns (r: Result)
    ensures Decides(c, w, r)
  {
    hide Is, Fails, Marker, LastSummary, FailedBy, Newest, HasFinding, Flat, Count;
    r := StaleHead(w.headAfter);
    if w.head != c.sha {
      r := StaleHead(w.head);
    } else if Any(Review, c, w.reviews) {
      var x := SomeNewest(Review, c, w.reviews);
      var n := Count(Finding, c, w.pullComments);
      if w.headAfter == c.sha {
        r := if n > 0 || HasFinding(Flat(x.body), c.sha) then Findings(x.id, n) else Clean(x.id);
      }
    } else if Any(CleanSay, c, w.issues) {
      var x := SomeNewest(CleanSay, c, w.issues);
      if w.headAfter == c.sha { r := CleanComment(x.id); }
    } else {
      var s := SomeSummary(c, w.issues);
      if exists i :: Fails(c, w.issues, s, i) {
        var failed := SomeFailure(c, w.issues, s);
        if w.headAfter == c.sha { r := failed; }
      } else {
        r := Pending(Count(Above(c.reviewBaseline), c, w.reviews), Count(Above(c.issueBaseline), c, w.issues),
                     Marker(c, s));
      }
      assert LastSummary(c, w.issues, s) && FailedOrPending(c, w, s, r);
    }
  }

  /** Whether an item, however edited since, is one of `before`. */
  predicate Existed(before: seq<Item>, item: Item) { exists b :: b in before && b.id == item.id }

  /** The items that were not there before, and with `edited` the summaries edited since. */
  function NewOf(c: Config, items: seq<Item>, before: seq<Item>, edited: bool): seq<Item> {
    if items == [] then []
    else
      var last := items[|items| - 1];
      NewOf(c, items[..|items| - 1], before, edited) +
      if !Existed(before, last) || (edited && IsSummary(c, last)) then [last] else []
  }

  lemma {:induction false} NewOfExactly(c: Config, items: seq<Item>, before: seq<Item>, edited: bool)
    ensures forall i :: i in NewOf(c, items, before, edited) <==>
              i in items && (!Existed(before, i) || (edited && IsSummary(c, i)))
  {
    hide Existed, IsSummary;
    if items != [] {
      var init, last := items[..|items| - 1], items[|items| - 1];
      NewOfExactly(c, init, before, edited);
      assert items == init + [last];
    }
  }

  lemma {:induction false} NewOfDistinct(c: Config, items: seq<Item>, before: seq<Item>, edited: bool)
    requires Distinct(items)
    ensures Distinct(NewOf(c, items, before, edited))
  {
    hide Existed, IsSummary;
    if items != [] {
      var init, last := items[..|items| - 1], items[|items| - 1];
      NewOfDistinct(c, init, before, edited);
      NewOfExactly(c, init, before, edited);
      var kept := NewOf(c, init, before, edited);
      forall k | 0 <= k < |kept| ensures kept[k].id != last.id { assert kept[k] in init; }
    }
  }

  /** A look with everything taken away that was there when the baselines were taken. */
  function WithoutOld(c: Config, w: World, reviews: seq<Item>, pulls: seq<Item>, issues: seq<Item>): World {
    w.(reviews := NewOf(c, w.reviews, reviews, false), pullComments := NewOf(c, w.pullComments, pulls, false),
       issues := NewOf(c, w.issues, issues, true))
  }

  lemma OldIsBelow(before: seq<Item>, baseline: int, i: Item)
    requires Existed(before, i) && forall b :: b in before ==> b.id <= baseline
    ensures i.id <= baseline
  {}

  lemma WithoutOldIsSameNew(c: Config, w: World, reviews: seq<Item>, pulls: seq<Item>, issues: seq<Item>)
    requires Tidy(c, w)
    requires forall b :: b in reviews ==> b.id <= c.reviewBaseline
    requires forall b :: b in pulls ==> b.id <= c.pullBaseline
    requires forall b :: b in issues ==> b.id <= c.issueBaseline && b.id <= c.failureBaseline
    ensures SameNew(c, w, WithoutOld(c, w, reviews, pulls, issues)) && Tidy(c, WithoutOld(c, w, reviews, pulls, issues))
  {
    hide Existed, IsSummary, NewOf, Distinct;
    NewOfExactly(c, w.reviews, reviews, false);
    NewOfExactly(c, w.pullComments, pulls, false);
    NewOfExactly(c, w.issues, issues, true);
    NewOfDistinct(c, w.reviews, reviews, false);
    NewOfDistinct(c, w.pullComments, pulls, false);
    NewOfDistinct(c, w.issues, issues, true);
    forall i: Item | i.id > c.reviewBaseline ensures !Existed(reviews, i) {
      if Existed(reviews, i) { OldIsBelow(reviews, c.reviewBaseline, i); }
    }
    forall i: Item | i.id > c.pullBaseline ensures !Existed(pulls, i) {
      if Existed(pulls, i) { OldIsBelow(pulls, c.pullBaseline, i); }
    }
    forall i: Item | i.id > c.issueBaseline || i.id > c.failureBaseline ensures !Existed(issues, i) {
      if Existed(issues, i) { OldIsBelow(issues, c.issueBaseline, i); OldIsBelow(issues, c.failureBaseline, i); }
    }
  }

  /** With the baselines a request takes, numbers growing as items are made: without all that was there
      before the request, save summaries edited since, the verdict is the same. */
  lemma OldItemsDecideNothing(c: Config, w: World, r: Result, reviews: seq<Item>, pulls: seq<Item>,
                              issues: seq<Item>, request: nat)
    requires c.reviewBaseline == MaxId(reviews) && c.pullBaseline == MaxId(pulls)
    requires c.issueBaseline == c.failureBaseline == request && forall i :: i in issues ==> i.id <= request
    requires Tidy(c, w) && Decides(c, w, r)
    ensures Decides(c, WithoutOld(c, w, reviews, pulls, issues), r)
    ensures forall r' :: Decides(c, WithoutOld(c, w, reviews, pulls, issues), r') ==> r' == r
  {
    hide Decides, Tidy, SameNew, WithoutOld;
    NoneAboveMax(reviews);
    NoneAboveMax(pulls);
    WithoutOldIsSameNew(c, w, reviews, pulls, issues);
    var w' := WithoutOld(c, w, reviews, pulls, issues);
    var r0 := SomeVerdict(c, w');
    OnlyNewItemsDecide(c, w, w', r, r0);
    forall r' | Decides(c, w', r') ensures r' == r { OnlyNewItemsDecide(c, w, w', r, r'); }
  }

  /** And what the verdict names was not there, but for a summary edited since. */
  lemma NamesNothingOld(c: Config, w: World, r: Result, reviews: seq<Item>, issues: seq<Item>, request: nat)
    requires c.reviewBaseline == MaxId(reviews) && c.issueBaseline == c.failureBaseline == request
    requires forall i :: i in issues ==> i.id <= request
    requires Decides(c, w, r)
    ensures r.Clean? || r.Findings? ==> forall i :: i in reviews ==> i.id != r.review
    ensures r.CleanComment? ==> forall i :: i in issues ==> i.id != r.comment
    ensures r.Failed? && r.reason != MarkerFailed ==> forall i :: i in issues ==> i.id != r.comment
    ensures r.Failed? && r.reason == MarkerFailed ==>
              exists i :: i in w.issues && i.id == r.comment && 0 < c.requestedAt < i.updatedAt
  {
    hide Contains, ReviewIsFor, HasReviewMarker, HasFinding, Flat, SummaryStatus, IsUsageLimit, Count;
    NoneAboveMax(reviews);
  }

  // ---- the scan -------------------------------------------------------------------------------

  method Matching(k: Kind, c: Config, items: seq<Item>) returns (out: seq<Item>)
    ensures forall i :: i in out <==> i in items && Is(k, c, i)
  {
    hide Is;
    out := [];
    for n := 0 to |items|
      invariant forall i :: i in out <==> i in items[..n] && Is(k, c, i)
    {
      assert items[..n + 1] == items[..n] + [items[n]];
      if Is(k, c, items[n]) { out := out + [items[n]]; }
    }
    assert items[..|items|] == items;
  }

  method Counted(k: Kind, c: Config, items: seq<Item>) returns (count: nat)
    ensures count == Count(k, c, items)
  {
    hide Is;
    count := 0;
    for n := 0 to |items|
      invariant count == Count(k, c, items[..n])
    {
      assert items[..n + 1][..n] == items[..n];
      if Is(k, c, items[n]) { count := count + 1; }
    }
    assert items[..|items|] == items;
  }

  /** The first of those with the highest number. */
  method MaxById(items: seq<Item>) returns (max: Option<Item>)
    ensures max.None? <==> items == []
    ensures max.Some? ==> max.value in items && forall i :: i in items ==> i.id <= max.value.id
  {
    max := None;
    for n := 0 to |items|
      invariant max.None? <==> n == 0
      invariant max.Some? ==> max.value in items && forall k :: 0 <= k < n ==> items[k].id <= max.value.id
    {
      if max.None? || items[n].id > max.value.id { max := Some(items[n]); }
    }
  }

  /** The first of those edited last. */
  method LastEdited(items: seq<Item>) returns (max: Option<Item>)
    ensures max.None? <==> items == []
    ensures max.Some? ==> max.value in items && forall i :: i in items ==> i.updatedAt <= max.value.updatedAt
  {
    max := None;
    for n := 0 to |items|
      invariant max.None? <==> n == 0
      invariant max.Some? ==> max.value in items && forall k :: 0 <= k < n ==> items[k].updatedAt <= max.value.updatedAt
    {
      if max.None? || items[n].updatedAt > max.value.updatedAt { max := Some(items[n]); }
    }
  }

  method ScanReviews(c: Config, w: World, review: Item) returns (r: Result)
    requires w.headAfter == c.sha && Newest(Review, c, w.reviews, review)
    ensures ReviewDecides(c, w, r)
  {
    hide Is, HasFinding, Flat, Newest;
    var count := Counted(Finding, c, w.pullComments);
    if count > 0 || HasFinding(Flat(review.body), c.sha) {
      r := Findings(review.id, count);
    } else {
      r := Clean(review.id);
    }
  }

  /** The failure replies, and the summary if it says failed; the newest of them. */
  method ScanFailures(c: Config, issues: seq<Item>) returns (failed: Option<Result>, marker: string,
                                                             ghost s: Option<Item>)
    ensures LastSummary(c, issues, s) && marker == Marker(c, s)
    ensures failed.None? ==> forall i :: !Fails(c, issues, s, i)
    ensures failed.Some? ==> (exists i :: Fails(c, issues, s, i)) && FailedBy(c, issues, s, failed.value)
  {
    var failures := Matching(Failure, c, issues);
    var summaries := Matching(Edited, c, issues);
    var summary := LastEdited(summaries);
    s := summary;
    marker := Marker(c, summary);
    forall i ensures i in failures <==> i in issues && IsFailure(c, i) {
      assert Is(Failure, c, i) <==> IsFailure(c, i);
    }
    forall i ensures i in summaries <==> i in issues && IsSummary(c, i) {
      assert Is(Edited, c, i) <==> IsSummary(c, i);
    }
    assert summary.Some? ==> Is(Edited, c, summary.value);
    hide IsFailure, IsSummary, Marker, WhyFailed, Is;
    if summary.Some? && marker == "failed" { failures := failures + [summary.value]; }
    forall i ensures i in failures <==> Fails(c, issues, s, i) {}
    var newest := MaxById(failures);
    failed := None;
    if newest.Some? {
      failed := Some(Failed(WhyFailed(c, newest.value), newest.value.id));
      assert Fails(c, issues, s, newest.value);
    }
  }

  /** One look at the pull request. */
  method ScanOnce(c: Config, w: World) returns (r: Result)
    ensures Decides(c, w, r)
  {
    hide Is, FailedBy, Fails, Latest, Marker, HasFinding;
    if w.head != c.sha { return StaleHead(w.head); }
    var reviews := Matching(Review, c, w.reviews);
    var review := MaxById(reviews);
    if review.Some? {
      assert Newest(Review, c, w.reviews, review.value);
      if w.headAfter != c.sha { return StaleHead(w.headAfter); }
      r := ScanReviews(c, w, review.value);
      return;
    }
    var clean := Matching(CleanSay, c, w.issues);
    var said := MaxById(clean);
    if said.Some? {
      assert Newest(CleanSay, c, w.issues, said.value);
      return if w.headAfter != c.sha then StaleHead(w.headAfter) else CleanComment(said.value.id);
    }
    var failed, marker; ghost var s;
    failed, marker, s := ScanFailures(c, w.issues);
    if failed.Some? {
      r := if w.headAfter != c.sha then StaleHead(w.headAfter) else failed.value;
    } else {
      var before := Counted(Above(c.reviewBaseline), c, w.reviews);
      var comments := Counted(Above(c.issueBaseline), c, w.issues);
      r := Pending(before, comments, marker);
    }
    assert LastSummary(c, w.issues, s) && FailedOrPending(c, w, s, r);
  }
}

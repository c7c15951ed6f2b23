/** The job lifecycle: the transition table, and what every run through it obeys. */
module JobState {

  datatype JobState =
    | New | Crawled | CrawledWarn | Processing | ProcessFailed | CrawlFailed | Processed
    | Blocked | Duplicate | NeedsHumanReview | NeedsRevision
    | ReviewPending | Approved | Rejected | Superseded | PublishedRecorded

  datatype ReviewReason = Risk | Dedup | Grounding | Classification

  function Successors(s: JobState): set<JobState> {
    match s
    case New => {Crawled, CrawledWarn, NeedsRevision, CrawlFailed}
    case CrawlFailed => {New}
    case Crawled => {CrawledWarn, Processing}
    case CrawledWarn => {Processing}
    case Processing => {ProcessFailed, Blocked, Duplicate, NeedsHumanReview, NeedsRevision, Processed}
    case ProcessFailed => {Processing}
    case NeedsHumanReview => {Processed, Rejected, Superseded}
    case NeedsRevision => {Processing, Superseded}
    case Processed => {ReviewPending}
    case ReviewPending => {Approved, Rejected, Superseded}
    case Approved => {PublishedRecorded, Superseded}
    case Blocked => {Superseded}
    case Duplicate => {Superseded}
    case Rejected => {}
    case Superseded => {}
    case PublishedRecorded => {}
  }

  predicate IsLegal(from: JobState, to: JobState) { to in Successors(from) }

  predicate IsTransient(s: JobState) { s == Processing }

  /** The table read backwards: the states each state is entered from. */
  lemma WaysInto(from: JobState, to: JobState)
    ensures IsLegal(from, to) <==>
            match to
            case New => from == CrawlFailed
            case Crawled => from == New
            case CrawledWarn => from == New || from == Crawled
            case CrawlFailed => from == New
            case Processing => from == Crawled || from == CrawledWarn || from == ProcessFailed || from == NeedsRevision
            case ProcessFailed => from == Processing
            case Blocked => from == Processing
            case Duplicate => from == Processing
            case NeedsHumanReview => from == Processing
            case NeedsRevision => from == New || from == Processing
            case Processed => from == Processing || from == NeedsHumanReview
            case ReviewPending => from == Processed
            case Approved => from == ReviewPending
            case Rejected => from == ReviewPending || from == NeedsHumanReview
            case PublishedRecorded => from == Approved
            case Superseded =>
              from == NeedsHumanReview || from == NeedsRevision || from == ReviewPending || from == Approved
              || from == Blocked || from == Duplicate
  {
  }

  predicate IsTerminal(s: JobState) { s in {Rejected, Superseded, PublishedRecorded} }

  /** The states Stage 2 may start from. */
  predicate IsEntry(s: JobState) { s in {Crawled, CrawledWarn, ProcessFailed, NeedsRevision} }

  /** One committed move: an edge of the table with the transient state contracted. */
  predicate RestingStep(from: JobState, to: JobState) {
    && !IsTransient(from) && !IsTransient(to)
    && (IsLegal(from, to) || (IsLegal(from, Processing) && IsLegal(Processing, to)))
  }

  /** The states a job held, oldest first. */
  ghost predicate Path(h: seq<JobState>) {
    && (forall i :: 0 <= i < |h| ==> !IsTransient(h[i]))
    && (forall i :: 0 < i < |h| ==> RestingStep(h[i - 1], h[i]))
  }

  lemma PathGrows(h: seq<JobState>, to: JobState)
    requires h != [] && Path(h) && RestingStep(h[|h| - 1], to)
    ensures Path(h + [to])
  {
  }

  /** How many more moves a job at s can make at most, for the states that bound it. */
  function Rank(s: JobState): (n: nat)
    requires s in {Processed, ReviewPending, Approved, Blocked, Duplicate} || IsTerminal(s)
    ensures n == 0 <==> IsTerminal(s)
  {
    match s
    case Processed => 3
    case ReviewPending => 2
    case Approved => 1
    case Blocked => 1
    case Duplicate => 1
    case _ => 0
  }

  predicate Bounded(s: JobState) { s in {Processed, ReviewPending, Approved, Blocked, Duplicate} || IsTerminal(s) }

  lemma RankFalls(from: JobState, to: JobState)
    requires Bounded(from) && RestingStep(from, to)
    ensures Bounded(to) && Rank(to) < Rank(from)
  {
  }

  /** From a bounded state on, the remaining moves are at most its rank. */
  lemma {:induction false} MovesBounded(h: seq<JobState>, i: nat)
    requires Path(h) && i < |h| && Bounded(h[i])
    ensures |h| - 1 - i <= Rank(h[i])
    decreases |h| - i
  {
    if i + 1 < |h| {
      RankFalls(h[i], h[i + 1]);
      MovesBounded(h, i + 1);
    }
  }

  /** At most three moves follow PROCESSED, and none of them re-enters Stage 2. */
  lemma AfterProcessed(h: seq<JobState>, i: nat)
    requires Path(h) && i < |h| && h[i] == Processed
    ensures |h| <= i + 4
    ensures forall k :: i < k < |h| ==> h[k] in {ReviewPending, Approved, Rejected, Superseded, PublishedRecorded}
    ensures i + 1 < |h| ==> h[i + 1] == ReviewPending
  {
    MovesBounded(h, i);
    if i + 1 < |h| { assert RestingStep(h[i], h[i + 1]); }
    if i + 2 < |h| { assert RestingStep(h[i + 1], h[i + 2]); }
    if i + 3 < |h| { assert RestingStep(h[i + 2], h[i + 3]); }
  }

  /** A blocked or duplicate job can only be superseded, and that ends it. */
  lemma AfterBlocked(h: seq<JobState>, i: nat)
    requires Path(h) && i < |h| && (h[i] == Blocked || h[i] == Duplicate)
    ensures |h| <= i + 2 && (i + 1 < |h| ==> h[i + 1] == Superseded)
  {
    MovesBounded(h, i);
    if i + 1 < |h| { assert RestingStep(h[i], h[i + 1]); }
  }

  /** Nothing leaves a terminal state, and only terminal states have no way out. */
  lemma TerminalIsAbsorbing(s: JobState)
    ensures IsTerminal(s) <==> Successors(s) == {}
    ensures IsTerminal(s) ==> forall to :: !RestingStep(s, to)
    ensures !IsTerminal(s) && !IsTransient(s) ==> exists to :: RestingStep(s, to)
  {
    match s {
      case New => assert RestingStep(s, Crawled);
      case CrawlFailed => assert RestingStep(s, New);
      case Crawled => assert RestingStep(s, CrawledWarn);
      case CrawledWarn => assert RestingStep(s, Processed);
      case Processing => assert Processed in Successors(s);
      case ProcessFailed => assert RestingStep(s, Processed);
      case NeedsHumanReview => assert RestingStep(s, Processed);
      case NeedsRevision => assert RestingStep(s, Superseded);
      case Processed => assert RestingStep(s, ReviewPending);
      case ReviewPending => assert RestingStep(s, Approved);
      case Approved => assert RestingStep(s, Superseded);
      case Blocked => assert RestingStep(s, Superseded);
      case Duplicate => assert RestingStep(s, Superseded);
      case _ =>
    }
  }

  /** The ways into the two sign-off states: REVIEW_PENDING is reached from PROCESSED alone,
      APPROVED from REVIEW_PENDING alone, PUBLISHED_RECORDED from APPROVED alone. */
  lemma OnlyWayIn(from: JobState, to: JobState)
    requires RestingStep(from, to)
    ensures to == ReviewPending ==> from == Processed
    ensures to == Approved ==> from == ReviewPending
    ensures to == PublishedRecorded ==> from == Approved
  {
  }

  /** A recorded publication has the whole sign-off path right behind it, each state entered once. */
  lemma PublishedWentThrough(h: seq<JobState>, i: nat)
    requires Path(h) && h != [] && h[0] !in {Processed, ReviewPending, Approved, PublishedRecorded}
    requires i < |h| && h[i] == PublishedRecorded
    ensures i >= 4 && h[i - 1] == Approved && h[i - 2] == ReviewPending && h[i - 3] == Processed
    ensures i == |h| - 1
  {
    OnlyWayIn(h[i - 1], h[i]);
    OnlyWayIn(h[i - 2], h[i - 1]);
    OnlyWayIn(h[i - 3], h[i - 2]);
    MovesBounded(h, i);
  }

  /** The table has no edge from APPROVED to REJECTED: a signed-off job is only superseded
      or recorded as published. */
  lemma ApprovedIsNeverRejected(to: JobState)
    requires RestingStep(Approved, to)
    ensures to == PublishedRecorded || to == Superseded
  {
  }
}

/** The two state machines and the shared records of internal/contracts. */
module Contracts {

  datatype Option<+T> = None | Some(value: T)

  /** How a store operation ends. */
  datatype StoreError = NotFound | Conflict | VersionConflict | InvalidTransition
  datatype Result<+T> = Ok(value: T) | Err(error: StoreError)

  /** Lifecycle of a content item. */
  datatype ContentStatus = Draft | Ready | Publishing | Published | PartiallyPublished | Failed | Archived {
    function ValidTransitions(): seq<ContentStatus> {
      match this
      case Draft => [Ready]
      case Ready => [Publishing]
      case Publishing => [Published, PartiallyPublished, ContentStatus.Failed]
      case PartiallyPublished => [Publishing, Archived]
      case Published => [Archived]
      case Failed => [Draft]
      case Archived => []
    }

    predicate CanTransitionTo(target: ContentStatus) {
      target in ValidTransitions()
    }
  }

  /** Lifecycle of the task that publishes one content to one platform. */
  datatype PublishTaskStatus = Pending | Processing | Succeeded | Failed | Retrying | Dead | Cancelled {
    function ValidTransitions(): seq<PublishTaskStatus> {
      match this
      case Pending => [Processing, Cancelled]
      case Processing => [Succeeded, PublishTaskStatus.Failed, Retrying]
      case Retrying => [Processing, Dead]
      case _ => []
    }

    predicate CanTransitionTo(target: PublishTaskStatus) {
      target in ValidTransitions()
    }

    predicate IsTerminal() {
      this == Succeeded || this == PublishTaskStatus.Failed || this == Dead || this == Cancelled
    }

    predicate IsActive() {
      this == Pending || this == Processing || this == Retrying
    }
  }

  /** Every consecutive pair of the history is an edge of the content table. */
  ghost predicate LegalContentPath(history: seq<ContentStatus>) {
    forall i :: 0 < i < |history| ==> history[i - 1].CanTransitionTo(history[i])
  }

  ghost predicate LegalTaskPath(history: seq<PublishTaskStatus>) {
    forall i :: 0 < i < |history| ==> history[i - 1].CanTransitionTo(history[i])
  }

  /** A task that keeps to its table is active until its last status, which it can never leave if and only if that
      status is terminal; and it is dead only directly after retrying. */
  lemma TaskHistories(history: seq<PublishTaskStatus>, i: nat)
    requires LegalTaskPath(history) && i < |history|
    ensures history[i].IsActive() <==> !history[i].IsTerminal()
    ensures i + 1 < |history| ==> history[i].IsActive()
    ensures history[i].IsTerminal() <==> forall s :: !history[i].CanTransitionTo(s)
    ensures i > 0 && history[i] == Dead ==> history[i - 1] == Retrying
  {
    assert history[i].IsActive() ==>
        history[i].CanTransitionTo(Processing) || history[i].CanTransitionTo(Succeeded);
    if i + 1 < |history| { assert history[i + 1 - 1].CanTransitionTo(history[i + 1]); }
  }

  /** The ways into and out of each content status: a history that keeps to its table goes on exactly so, and archived
      is its only end. */
  lemma ContentHistories(history: seq<ContentStatus>, next: ContentStatus)
    requires LegalContentPath(history) && history != []
    ensures var last := history[|history| - 1];
            LegalContentPath(history + [next]) <==>
              match next
              case Draft => last == ContentStatus.Failed
              case Ready => last == Draft
              case Publishing => last == Ready || last == PartiallyPublished
              case Archived => last == Published || last == PartiallyPublished
              case _ => last == Publishing
    ensures history[|history| - 1] == Archived <==> forall s :: !LegalContentPath(history + [s])
  {
    forall s ensures LegalContentPath(history + [s]) <==> history[|history| - 1].CanTransitionTo(s) {
      OneMoreContentStatus(history, s);
    }
    WaysOn(history[|history| - 1]);
  }

  lemma OneMoreContentStatus(history: seq<ContentStatus>, s: ContentStatus)
    requires LegalContentPath(history) && history != []
    ensures LegalContentPath(history + [s]) <==> history[|history| - 1].CanTransitionTo(s)
  {
    var more := history + [s];
    assert more[|history| - 1] == history[|history| - 1] && more[|history|] == s;
    forall i | 0 < i < |history| ensures more[i - 1].CanTransitionTo(more[i]) {
      assert history[i - 1].CanTransitionTo(history[i]);
    }
  }

  /** Every content status but archived has a way on. */
  lemma WaysOn(s: ContentStatus)
    ensures s != Archived ==>
              s.CanTransitionTo(Archived) || s.CanTransitionTo(Ready) || s.CanTransitionTo(Publishing) ||
              s.CanTransitionTo(Published) || s.CanTransitionTo(Draft)
  {
  }

  /** The same for a task: it is pending only at first, and every status but that has the given ways in. */
  lemma TaskSteps(history: seq<PublishTaskStatus>, next: PublishTaskStatus)
    requires LegalTaskPath(history) && history != []
    ensures var last := history[|history| - 1];
            LegalTaskPath(history + [next]) <==>
              match next
              case Pending => false
              case Processing => last == Pending || last == Retrying
              case Cancelled => last == Pending
              case Dead => last == Retrying
              case _ => last == Processing
  {
    var more := history + [next];
    assert more[|history| - 1] == history[|history| - 1] && more[|history|] == next;
    forall i | 0 < i < |history| ensures more[i - 1].CanTransitionTo(more[i]) {
      assert history[i - 1].CanTransitionTo(history[i]);
    }
  }
}

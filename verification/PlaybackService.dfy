/**
 The playback service object. Its methods rewrite the tables step by step inside a transaction and
 restore them when they fail; each is proved to be the transaction that PlaybackDriver defines.
 */
module PlaybackService {
  import opened Base
  import opened Playback
  import opened PlaybackDriver

  class Service {
    var active: bool
    var lists: map<ListId, seq<Entry>>
    var revisions: set<string>
    var presentation: nat
    var pointer: Option<Pointer>
    var play: Option<Play>
    var dues: seq<Due>
    var effects: set<nat>
    var receipts: map<string, Receipt>

    function Tables(): World
      reads this
    {
      World(active, lists, revisions, presentation, pointer, play, dues, effects)
    }

    /** Whether every publication a list shows is complete. */
    method RequirePublications(entries: seq<Entry>) returns (found: bool)
      ensures found == Published(Tables(), entries)
    {
      var i := 0;
      while i < |entries|
        invariant 0 <= i <= |entries|
        invariant forall j :: 0 <= j < i ==> entries[j].publicationRevisionId in revisions
      {
        if entries[i].publicationRevisionId !in revisions {
          return false;
        }
        i := i + 1;
      }
      return true;
    }

    /** Pending schedules become terminal; they are never deleted. */
    method SupersedePending()
      modifies this`dues
      ensures dues == Superseded(old(dues))
    {
      var i := 0;
      while i < |dues|
        invariant 0 <= i <= |dues| == |old(dues)|
        invariant forall j :: 0 <= j < i ==> dues[j] == Superseded(old(dues))[j]
        invariant forall j :: i <= j < |dues| ==> dues[j] == old(dues)[j]
      {
        if dues[i].status.Pending? {
          dues := dues[i := dues[i].(status := Delivered)];
        }
        i := i + 1;
      }
    }

    method SetDesiredRevision(revision: string) returns (result: Result<(), Failure>)
      modifies this`presentation, this`pointer
      ensures match SetDesired(old(Tables()), revision)
              case Err(e) => result == Err(e) && Tables() == old(Tables())
              case Ok(after) => result.Ok? && Tables() == after
    {
      if pointer.Some? && pointer.value.desired == Some(revision) {
        return Ok(());
      }
      if revision !in revisions {
        return Err(NoRevision);
      }
      presentation := presentation + 1;
      pointer := Some(Pointer(Some(revision), presentation));
      return Ok(());
    }

    method StoreRow(list: ListId, next: Anchor, current: Position)
      modifies this`play, this`dues
      ensures Tables() == Stored(old(Tables()), list, next, current)
    {
      var version := (if play.None? then 0 else play.value.version) + 1;
      play := Some(Play(version, list, next, current.itemId, current.nextTransitionAt));
      SupersedePending();
      if current.nextTransitionAt.Some? {
        dues := dues + [Due(version, current.nextTransitionAt.value, Pending)];
      }
    }

    /** Writes the new row, ends older schedules and adds the next one. The caller undoes a failure. */
    method Write(list: ListId, next: Anchor, entries: seq<Entry>, action: Action) returns (result: Result<(), Failure>)
      modifies this`presentation, this`pointer, this`play, this`dues
      ensures match Persist(old(Tables()), list, next, entries, action)
              case Err(e) => result == Err(e)
              case Ok(after) => result.Ok? && Tables() == after
    {
      var position := ComputePosition(next, entries, next.evaluatedAt);
      if position.Err? {
        return Err(NoPosition);
      }
      var current := position.value;
      if next.status == Running || next.status == Paused {
        var found := RequirePublications(entries);
        if !found {
          return Err(NoRevision);
        }
      }
      StoreRow(list, next, current);
      if Showing(next, action, current) {
        result := SetDesiredRevision(current.publicationRevisionId.value);
        return;
      }
      return Ok(());
    }

    method Restore(saved: World)
      requires saved.active == active && saved.lists == lists && saved.revisions == revisions
      modifies this
      ensures Tables() == saved && receipts == old(receipts)
    {
      presentation, pointer, play, dues, effects := saved.presentation, saved.pointer, saved.play, saved.dues, saved.effects;
    }

    method ExecuteInTransaction(request: Request, now: int) returns (result: Result<(), Failure>)
      modifies this
      ensures receipts == old(receipts)
      ensures match Execute(old(Tables()), request, now)
              case Err(e) => result == Err(e) && Tables() == old(Tables())
              case Ok(after) => result.Ok? && Tables() == after
    {
      if Replaces(request.action) != request.list.Some? {
        return Err(BadRequest);
      }
      if !active {
        return Err(NoDevice);
      }
      if Version(Tables()) != request.expectedVersion || Sequence(Tables()) != request.expectedSequence {
        return Err(SequenceConflict);
      }
      var previous := Ok([]);
      if play.Some? {
        previous := Entries(Tables(), play.value.list);
      }
      if previous.Err? {
        return Err(previous.error);
      }
      if play.None? && request.list.None? {
        return Err(NotStartedYet);
      }
      var list := if request.list.Some? then request.list.value else play.value.list;
      var entries := previous;
      if request.list.Some? {
        entries := Entries(Tables(), list);
      }
      if entries.Err? {
        return Err(entries.error);
      }
      result := Change(request, list, previous.value, entries.value, now);
    }

    method Change(request: Request, list: ListId, previous: seq<Entry>, entries: seq<Entry>, now: int)
      returns (result: Result<(), Failure>)
      modifies this
      ensures receipts == old(receipts)
      ensures match Evolve(old(Tables()), request, list, previous, entries, now)
              case Err(e) => result == Err(e) && Tables() == old(Tables())
              case Ok(after) => result.Ok? && Tables() == after
    {
      var saved := Tables();
      var next := Transition(AnchorOf(saved), previous, request.action, now, entries);
      if next.Err? {
        return Err(BadTransition);
      }
      if NoChange(saved, request, list, next.value, now) {
        return Ok(());
      }
      result := Write(list, next.value, entries, request.action);
      if result.Err? {
        Restore(saved);
      }
    }

    /** A claimed due event: at most one change, recorded as an effect in the same transaction. */
    method HandleDue(event: nat, token: Token, now: int, leased: bool, stillLeased: bool) returns (result: Result<(), Failure>)
      modifies this
      ensures receipts == old(receipts)
      ensures match AdvanceDue(old(Tables()), event, token, now, leased, stillLeased)
              case Err(e) => result == Err(e) && Tables() == old(Tables())
              case Ok(after) => result.Ok? && Tables() == after
    {
      var saved := Tables();
      if !Fenced(saved, event, token) || !leased {
        return Err(ClaimExpired);
      }
      var due := dues[event];
      if due.version in effects {
        return Ok(());
      }
      if Current(saved, due) {
        result := ApplyDue(due, now);
        if result.Err? {
          Restore(saved);
          return;
        }
      }
      effects := effects + {due.version};
      if !stillLeased {
        Restore(saved);
        return Err(ClaimExpired);
      }
      return Ok(());
    }

    method ApplyDue(due: Due, now: int) returns (result: Result<(), Failure>)
      requires Current(Tables(), due)
      modifies this`presentation, this`pointer, this`play, this`dues
      ensures match Applied(old(Tables()), due, now)
              case Err(e) => result == Err(e)
              case Ok(after) => result.Ok? && Tables() == after
    {
      if now < due.dueAt {
        return Err(NotDue);
      }
      var entries := Entries(Tables(), play.value.list);
      if entries.Err? {
        return Err(entries.error);
      }
      var action := if active then Restart else Stop;
      var next := Transition(Some(play.value.anchor), entries.value, action, now, []);
      if next.Err? {
        return Err(BadTransition);
      }
      result := Write(play.value.list, next.value, entries.value, action);
    }

    method SubmitCommand(key: string, request: Request, now: int) returns (result: Result<Summary, Failure>)
      modifies this
      ensures (Desk(Tables(), receipts), result) == Submit(old(Desk(Tables(), receipts)), key, request, now)
    {
      if Replaces(request.action) != request.list.Some? || !Uuid(key) {
        return Err(BadRequest);
      }
      var keyHash := Lower(key);
      if keyHash in receipts {
        var receipt := receipts[keyHash];
        return if receipt.request == request then Ok(receipt.result) else Err(KeyConflict);
      }
      var done := ExecuteInTransaction(request, now);
      if done.Err? {
        return Err(done.error);
      }
      ExecuteHasPlay(old(Tables()), request, now);
      var summary := Summarize(play.value, Sequence(Tables()));
      receipts := receipts[keyHash := Receipt(request, summary)];
      return Ok(summary);
    }
  }
}

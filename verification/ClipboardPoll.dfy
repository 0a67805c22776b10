/**
  When a poll of the local clipboard reports an update: has_os_clipboard_updated and
  set_os_clipboard (protocol/whist/clipboard/clipboard.c) over the change-counter backend
  (protocol/whist/clipboard/mac_clipboard.c).
 */
module ClipboardPoll {

  /** What the pasteboard holds, as the three content checks see it. */
  datatype Content = Content(image: bool, text: bool, files: bool)

  /** The operating system's pasteboard: its change counter and its content. */
  datatype Pasteboard = Pasteboard(count: nat, ready: bool, content: Content)

  datatype Kind = NoData | Text | Image | Files

  /** The static variables of the two files. */
  datatype Watch = Watch(lastSequence: int, seen: Content, skipNext: bool, preserve: bool)

  predicate Recognised(c: Content) {
    c.image || c.text || c.files
  }

  const NOTHING: Content := Content(false, false, false)

  function Started(preserve: bool): Watch {
    Watch(-1, NOTHING, false, preserve)
  }

  /** A poll sees a change whose data is there. */
  predicate Observes(w: Watch, p: Pasteboard) {
    p.count > w.lastSequence && p.ready
  }

  /** unsafe_has_os_clipboard_updated */
  predicate Updated(w: Watch, p: Pasteboard) {
    Observes(w, p) && w.preserve && Recognised(p.content)
  }

  function Parsed(w: Watch, p: Pasteboard): Watch {
    if Observes(w, p) then w.(lastSequence := p.count, seen := p.content) else w
  }

  /** The watch after has_os_clipboard_updated. */
  function Polled(w: Watch, p: Pasteboard, locked: bool): Watch {
    if !locked then w
    else if Updated(w, p) then Parsed(w, p).(skipNext := false)
    else Parsed(w, p)
  }

  predicate Reports(w: Watch, p: Pasteboard, locked: bool) {
    locked && Updated(w, p) && !w.skipNext
  }

  /** unsafe_set_os_clipboard: text and images reach the pasteboard, nothing else does. */
  function Written(p: Pasteboard, kind: Kind): Pasteboard {
    match kind
    case Text => Pasteboard(p.count + 1, true, Content(false, true, false))
    case Image => Pasteboard(p.count + 1, true, Content(true, false, false))
    case _ => p
  }

  class OsClipboard {
    var lastSequenceNumber: int
    var hasImage: bool
    var hasString: bool
    var hasFiles: bool
    var skipNextHasUpdated: bool
    const preserveLocalClipboard: bool

    ghost function View(): Watch
      reads this
    {
      Watch(lastSequenceNumber, Content(hasImage, hasString, hasFiles), skipNextHasUpdated, preserveLocalClipboard)
    }

    constructor (isClient: bool)
      ensures View() == Started(isClient)
    {
      lastSequenceNumber := -1;
      hasImage, hasString, hasFiles := false, false, false;
      skipNextHasUpdated := false;
      preserveLocalClipboard := isClient;
    }

    method UnsafeHasUpdated(p: Pasteboard) returns (updated: bool)
      modifies this
      ensures View() == Parsed(old(View()), p) && updated == Updated(old(View()), p)
    {
      updated := false;
      if p.count > lastSequenceNumber {
        if !p.ready {
          return false;
        }
        hasImage := p.content.image;
        hasString := p.content.text;
        hasFiles := p.content.files;
        if preserveLocalClipboard {
          updated := hasImage || hasString || hasFiles;
        }
        lastSequenceNumber := p.count;
      }
    }

    method HasUpdated(p: Pasteboard, locked: bool) returns (updated: bool)
      modifies this
      ensures View() == Polled(old(View()), p, locked) && updated == Reports(old(View()), p, locked)
    {
      if !locked {
        return false;
      }
      updated := UnsafeHasUpdated(p);
      if updated && skipNextHasUpdated {
        updated := false;
        skipNextHasUpdated := false;
      }
    }

    method Set(p: Pasteboard, kind: Kind) returns (written: Pasteboard)
      modifies this
      ensures View() == old(View()).(skipNext := true) && written == Written(p, kind)
    {
      written := p;
      if kind == Text {
        written := Pasteboard(p.count + 1, true, Content(false, true, false));
      } else if kind == Image {
        written := Pasteboard(p.count + 1, true, Content(true, false, false));
      }
      skipNextHasUpdated := true;
    }
  }

  // ------------------------------------------------------------ runs

  datatype Event =
    | Copy(content: Content, ready: bool)     // a local copy; its data may come later
    | Fill                                    // the data of the last copy is there
    | Set(kind: Kind)                         // a clipboard from the other side
    | Poll(locked: bool)                      // whether the try-lock succeeds

  datatype State = State(watch: Watch, board: Pasteboard)

  function Next(s: State, e: Event): State {
    match e
    case Copy(content, ready) => s.(board := Pasteboard(s.board.count + 1, ready, content))
    case Fill => s.(board := s.board.(ready := true))
    case Set(kind) => State(s.watch.(skipNext := true), Written(s.board, kind))
    case Poll(locked) => s.(watch := Polled(s.watch, s.board, locked))
  }

  /** The state before event `k`, from the start on a pasteboard `board`. */
  function At(preserve: bool, board: Pasteboard, events: seq<Event>, k: nat): State
    requires k <= |events|
  {
    if k == 0 then State(Started(preserve), board)
    else Next(At(preserve, board, events, k - 1), events[k - 1])
  }

  /** Event `k` is a poll that observes a change. */
  predicate ObservesAt(preserve: bool, board: Pasteboard, events: seq<Event>, k: nat)
    requires k < |events|
  {
    var s := At(preserve, board, events, k);
    events[k] == Poll(true) && Observes(s.watch, s.board)
  }

  predicate RecognisesAt(preserve: bool, board: Pasteboard, events: seq<Event>, k: nat)
    requires k < |events|
  {
    ObservesAt(preserve, board, events, k) && preserve && Recognised(At(preserve, board, events, k).board.content)
  }

  predicate ReportsAt(preserve: bool, board: Pasteboard, events: seq<Event>, k: nat)
    requires k < |events| && events[k].Poll?
  {
    var s := At(preserve, board, events, k);
    Reports(s.watch, s.board, events[k].locked)
  }

  /** `j` is the last observing poll before `k`, or -1. */
  ghost predicate LastObserved(preserve: bool, board: Pasteboard, events: seq<Event>, j: int, k: nat)
    requires k <= |events|
  {
    && -1 <= j < k
    && (j >= 0 ==> ObservesAt(preserve, board, events, j))
    && forall m: nat :: j < m < k ==> !ObservesAt(preserve, board, events, m)
  }

  /** `r` is the last observing poll before `k` whose content was recognised, or -1. */
  ghost predicate LastRecognised(preserve: bool, board: Pasteboard, events: seq<Event>, r: int, k: nat)
    requires k <= |events|
  {
    && -1 <= r < k
    && (r >= 0 ==> RecognisesAt(preserve, board, events, r))
    && forall m: nat :: r < m < k ==> !RecognisesAt(preserve, board, events, m)
  }

  ghost predicate SetBetween(events: seq<Event>, i: int, k: int)
    requires -1 <= i && k <= |events|
  {
    exists m :: i < m < k && events[m].Set?
  }

  /** A local copy after `i`; what lay on the pasteboard at the start counts as one. */
  ghost predicate CopyBetween(events: seq<Event>, i: int, k: int)
    requires -1 <= i && k <= |events|
  {
    i == -1 || exists m :: i < m < k && events[m].Copy?
  }

  predicate Advances(e: Event) {
    e.Copy? || (e.Set? && (e.kind == Text || e.kind == Image))
  }

  ghost predicate AdvanceBetween(events: seq<Event>, i: int, k: int)
    requires -1 <= i && k <= |events|
  {
    i == -1 || exists m :: i < m < k && Advances(events[m])
  }

  // ------------------------------------------------------------ what the watch remembers

  lemma {:induction false} PreserveFixed(preserve: bool, board: Pasteboard, events: seq<Event>, k: nat)
    requires k <= |events|
    ensures At(preserve, board, events, k).watch.preserve == preserve
    ensures At(preserve, board, events, k).watch.lastSequence <= At(preserve, board, events, k).board.count
  {
    if k > 0 {
      PreserveFixed(preserve, board, events, k - 1);
    }
  }

  /** The counter is ahead exactly when something advanced it since the last observing poll. */
  lemma {:induction false} AheadMeansAdvanced(preserve: bool, board: Pasteboard, events: seq<Event>, j: int, k: nat)
    requires k <= |events| && LastObserved(preserve, board, events, j, k)
    ensures var s := At(preserve, board, events, k);
            s.board.count > s.watch.lastSequence <==> AdvanceBetween(events, j, k)
    decreases k
  {
    if k > 0 {
      PreserveFixed(preserve, board, events, k - 1);
      if j < k - 1 {
        AheadMeansAdvanced(preserve, board, events, j, k - 1);
        assert !ObservesAt(preserve, board, events, k - 1);
      }
    }
  }

  /** The skip flag is up exactly when a set happened since the last recognised observation. */
  lemma {:induction false} SkipMeansSet(preserve: bool, board: Pasteboard, events: seq<Event>, r: int, k: nat)
    requires k <= |events| && LastRecognised(preserve, board, events, r, k)
    ensures At(preserve, board, events, k).watch.skipNext <==> SetBetween(events, r, k)
    decreases k
  {
    if k > 0 {
      PreserveFixed(preserve, board, events, k - 1);
      if r < k - 1 {
        SkipMeansSet(preserve, board, events, r, k - 1);
        assert !RecognisesAt(preserve, board, events, k - 1);
      }
    }
  }

  // ------------------------------------------------------------ theorems

  /**
    What a poll reports, in terms of what happened before it: a change is there to be
    observed, its content is recognised, and no set came since the last such poll.
   */
  lemma {:induction false} PollExactly(preserve: bool, board: Pasteboard, events: seq<Event>, j: int, r: int, k: nat)
    requires k < |events| && events[k].Poll?
    requires LastObserved(preserve, board, events, j, k) && LastRecognised(preserve, board, events, r, k)
    ensures ReportsAt(preserve, board, events, k) <==>
      RecognisesAt(preserve, board, events, k) && !SetBetween(events, r, k)
    ensures ObservesAt(preserve, board, events, k) <==>
      events[k].locked && At(preserve, board, events, k).board.ready && AdvanceBetween(events, j, k)
  {
    PreserveFixed(preserve, board, events, k);
    AheadMeansAdvanced(preserve, board, events, j, k);
    SkipMeansSet(preserve, board, events, r, k);
  }

  /** Of two observing polls with the same last one, the recognised one is not the later. */
  lemma RecognisedNotLater(preserve: bool, board: Pasteboard, events: seq<Event>, j: int, r: int, k: nat)
    requires k <= |events|
    requires LastObserved(preserve, board, events, j, k) && LastRecognised(preserve, board, events, r, k)
    ensures r <= j
  {}

  /**
    An observing poll reports exactly "a local copy and no remote set since the last
    observing poll" if and only if a set came since then, or the content is recognised
    now and no set is left over from before an unrecognised observation.
   */
  lemma {:induction false} CopyAndNoSet(preserve: bool, board: Pasteboard, events: seq<Event>, j: int, r: int, k: nat)
    requires k < |events| && preserve && ObservesAt(preserve, board, events, k)
    requires LastObserved(preserve, board, events, j, k) && LastRecognised(preserve, board, events, r, k)
    ensures (ReportsAt(preserve, board, events, k) <==> CopyBetween(events, j, k) && !SetBetween(events, j, k))
      <==> (SetBetween(events, j, k) || (RecognisesAt(preserve, board, events, k) && !SetBetween(events, r, j)))
  {
    PollExactly(preserve, board, events, j, r, k);
    RecognisedNotLater(preserve, board, events, j, r, k);
    assert j >= 0 ==> events[j].Poll?;
    hide ReportsAt, RecognisesAt, ObservesAt;
    SetSplits(events, r, j, k);
    assert AdvanceBetween(events, j, k) ==> CopyBetween(events, j, k) || SetBetween(events, j, k);
  }

  lemma SetSplits(events: seq<Event>, r: int, j: int, k: nat)
    requires -1 <= r <= j < k <= |events| && (j >= 0 ==> !events[j].Set?)
    ensures SetBetween(events, r, k) <==> SetBetween(events, r, j) || SetBetween(events, j, k)
  {}

  /** When every observation so far was recognised, the simple statement holds. */
  lemma {:induction false} CopyAndNoSetWhenRecognised(
    preserve: bool, board: Pasteboard, events: seq<Event>, j: int, k: nat)
    requires k < |events| && preserve && ObservesAt(preserve, board, events, k)
    requires LastObserved(preserve, board, events, j, k)
    requires forall m: nat :: m <= k && ObservesAt(preserve, board, events, m) ==>
               RecognisesAt(preserve, board, events, m)
    ensures ReportsAt(preserve, board, events, k) <==> CopyBetween(events, j, k) && !SetBetween(events, j, k)
  {
    assert forall m: nat :: m < k && RecognisesAt(preserve, board, events, m) ==>
        ObservesAt(preserve, board, events, m);
    hide RecognisesAt, ReportsAt, ObservesAt;
    assert LastRecognised(preserve, board, events, j, k);
    CopyAndNoSet(preserve, board, events, j, j, k);
  }

  // ------------------------------------------------------------ what is observed

  /** What lies on the pasteboard after an event that advances its counter. */
  function ContentOf(e: Event): Content
    requires Advances(e)
  {
    if e.Copy? then e.content else Content(e.kind == Image, e.kind == Text, false)
  }

  /** The data of the write `w` is there before event `k`: at once, or by a later word. */
  ghost predicate DataThere(events: seq<Event>, w: nat, k: nat)
    requires w < k <= |events| && Advances(events[w])
  {
    events[w].Set? || events[w].ready || exists m :: w < m < k && events[m].Fill?
  }

  /** The pasteboard holds what was last written to it, whichever side wrote it. */
  lemma {:induction false} BoardIsLastWrite(preserve: bool, board: Pasteboard, events: seq<Event>, w: nat, k: nat)
    requires w < k <= |events| && Advances(events[w])
    requires forall m :: w < m < k ==> !Advances(events[m])
    ensures var b := At(preserve, board, events, k).board;
            b.content == ContentOf(events[w]) && (b.ready <==> DataThere(events, w, k))
    decreases k
  {
    if w < k - 1 {
      BoardIsLastWrite(preserve, board, events, w, k - 1);
      DataComes(events, w, k - 1);
    }
  }

  lemma DataComes(events: seq<Event>, w: nat, k: nat)
    requires w < k < |events| && Advances(events[w])
    ensures DataThere(events, w, k + 1) <==> DataThere(events, w, k) || events[k].Fill?
  {}

  /** What an observing poll has seen, for get_os_clipboard to read, is what was last written. */
  lemma {:induction false} ObservedIsLastWrite(preserve: bool, board: Pasteboard, events: seq<Event>, w: nat, k: nat)
    requires w < k < |events| && Advances(events[w]) && ObservesAt(preserve, board, events, k)
    requires forall m :: w < m < k ==> !Advances(events[m])
    ensures At(preserve, board, events, k + 1).watch.seen == ContentOf(events[w])
  {
    BoardIsLastWrite(preserve, board, events, w, k);
  }

  /** A set is not played back: the poll that observes it, with nothing written since, sees it and reports nothing. */
  lemma {:induction false} SetIsNotPlayedBack(preserve: bool, board: Pasteboard, events: seq<Event>, w: nat, k: nat)
    requires w < k < |events| && events[w].Set? && Advances(events[w])
    requires ObservesAt(preserve, board, events, k)
    requires forall m :: w < m < k ==> !Advances(events[m]) && !ObservesAt(preserve, board, events, m)
    ensures !ReportsAt(preserve, board, events, k)
    ensures At(preserve, board, events, k + 1).watch.seen ==
              Content(events[w].kind == Image, events[w].kind == Text, false)
  {
    ObservedIsLastWrite(preserve, board, events, w, k);
    SkipStays(preserve, board, events, w, k);
  }

  lemma {:induction false} SkipStays(preserve: bool, board: Pasteboard, events: seq<Event>, w: nat, k: nat)
    requires w < k <= |events| && events[w].Set?
    requires forall m :: w < m < k ==> !ObservesAt(preserve, board, events, m)
    ensures At(preserve, board, events, k).watch.skipNext
    decreases k
  {
    if w < k - 1 {
      SkipStays(preserve, board, events, w, k - 1);
      assert !ObservesAt(preserve, board, events, k - 1);
    }
  }

  /** A poll that gets no lock, or finds no data yet, loses nothing; a server never reports. */
  lemma FailedPollsLoseNothing(s: State, locked: bool)
    requires !locked || !Observes(s.watch, s.board)
    ensures Next(s, Poll(locked)) == s && !Reports(s.watch, s.board, locked)
  {}

  lemma {:induction false} ServerNeverReports(board: Pasteboard, events: seq<Event>, k: nat)
    requires k < |events| && events[k].Poll?
    ensures !ReportsAt(false, board, events, k)
  {
    PreserveFixed(false, board, events, k);
  }

  /** A set, an unrecognised copy that is observed, and then a text copy that is swallowed. */
  lemma SwallowedCopy() returns (events: seq<Event>, j: int)
    ensures |events| == 5 && LastObserved(true, Pasteboard(0, true, NOTHING), events, j, 4)
    ensures ObservesAt(true, Pasteboard(0, true, NOTHING), events, 4)
    ensures CopyBetween(events, j, 4) && !SetBetween(events, j, 4)
    ensures events[4].Poll? && !ReportsAt(true, Pasteboard(0, true, NOTHING), events, 4)
  {
    var board := Pasteboard(0, true, NOTHING);
    var text := Content(false, true, false);
    events := [Set(Text), Copy(NOTHING, true), Poll(true), Copy(text, true), Poll(true)];
    j := 2;
    var s0 := State(Started(true), board);
    var s1 := Next(s0, events[0]);
    var s2 := Next(s1, events[1]);
    var s3 := Next(s2, events[2]);
    assert At(true, board, events, 1) == s1;
    assert At(true, board, events, 2) == s2;
    assert At(true, board, events, 3) == s3;
    assert At(true, board, events, 4) == Next(s3, events[3]);
    assert events[3].Copy?;
  }
}

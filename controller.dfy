// The browser client's detection loop as a state machine over the state of
// its page. Every press of Start lets the video's metadata load once more,
// and each load starts a new chain of detectFrame calls that reschedules
// itself on every animation frame; Stop never ends a chain. All chains share
// one `processing` flag, which is what keeps detection cycles from
// overlapping. Each chain is either waiting for its next animation frame or
// suspended in a cycle that awaits the server's reply.

module Controller {
  import opened Render

  const STATUS_ACTIVE: string := "ACTIVATED \U{2022} Processing Frames"
  const STATUS_CAMERA_DENIED: string := "ERROR: CAMERA ACCESS DENIED"
  const STATUS_NETWORK_ERROR: string := "NETWORK ERROR: Could not reach detection server."
  const STATUS_OFFLINE: string := "Offline"

  /** One detectFrame chain: waiting for its next animation frame, inside a
      cycle and suspended until the frame is encoded and the reply (or its
      failure) arrives, or ended by an exception that escaped the cycle.
      `blank` records that the cycle began while the stream's metadata was
      still pending: the video's size was then zero, so the canvas sized to
      it has no pixels, the encoder yields no image, and appending that to
      the form throws before any request, outside the handled region. */
  datatype Chain = Waiting | InFlight(blank: bool) | Ended

  /** How the request of a cycle with a real frame ends: the reply's
      detections, or a failure of the request or of reading its body, which
      the cycle catches. */
  datatype Outcome = Received(detections: seq<Detection>) | Failed

  /** The state the client code reads and writes.
      cameraOn: the stream's tracks are live; metadataPending: a stream is
      attached and its metadata not yet loaded; videoPaused: the video's
      `paused`; processing: the shared flag; alertShown: the alert overlay is
      visible; bodyAlert: the page carries its alert styling; audioPlaying and
      audioPosition: the alarm sound; rows: the detection list; drawings: the
      boxes on the canvas; stopShown: the Stop button shows instead of Start. */
  datatype Page = Page(
    cameraOn: bool,
    metadataPending: bool,
    videoPaused: bool,
    processing: bool,
    chains: seq<Chain>,
    alertShown: bool,
    bodyAlert: bool,
    audioPlaying: bool,
    audioPosition: real,
    rows: seq<Row>,
    drawings: seq<Drawing>,
    status: string,
    stopShown: bool)

  /** The page before anything is pressed: no stream, no chain, and the
      same interface Stop leaves behind. */
  function Initial(): Page
  {
    Page(false, false, true, false, [], false, false, false, 0.0,
         [Placeholder], [], STATUS_OFFLINE, false)
  }

  /** The Start handler. With camera access granted the stream is attached
      and played, the list is emptied and the page's alert styling removed;
      the alert overlay and the audio are left as they are. With access
      denied only the status changes. */
  function Start(p: Page, granted: bool): Page
  {
    if granted then
      p.(cameraOn := true, metadataPending := true, videoPaused := false,
         status := STATUS_ACTIVE, stopShown := true, bodyAlert := false, rows := [])
    else
      p.(status := STATUS_CAMERA_DENIED)
  }

  /** One call of detectFrame by the chain at index i. When the video plays
      and no cycle is in flight the cycle begins: the flag is raised and the
      canvas is resized to the video, which clears it, so no earlier box
      remains. Otherwise nothing changes and the chain waits for its next
      frame. */
  function Tick(p: Page, i: nat): Page
    requires i < |p.chains| && p.chains[i] == Waiting
  {
    if !p.videoPaused && !p.processing then
      p.(processing := true, chains := p.chains[i := InFlight(p.metadataPending)], drawings := [])
    else
      p
  }

  /** The metadata of the attached stream has loaded: a new chain starts and
      calls detectFrame at once. */
  function LoadMetadata(p: Page): Page
    requires p.metadataPending
  {
    Tick(p.(metadataPending := false, chains := p.chains + [Waiting]), |p.chains|)
  }

  /** The alarm branch after a reply: ALERT shows the overlay and the page's
      alert styling and plays the sound from where it is; CLEAR hides them,
      pauses the sound and rewinds it. */
  function Alarm(p: Page, alert: bool): Page
  {
    if alert then
      p.(alertShown := true, bodyAlert := true, audioPlaying := true)
    else
      p.(alertShown := false, bodyAlert := false, audioPlaying := false, audioPosition := 0.0)
  }

  /** What the end of a handled cycle does to the page: a reply replaces
      the boxes and the list and decides the alarm; a failure only sets the
      status. */
  function Apply(p: Page, o: Outcome): Page
  {
    match o
    case Received(ds) => Alarm(p.(rows := Rows(ds), drawings := Drawings(ds)), AnyAlarm(ds))
    case Failed => p.(status := STATUS_NETWORK_ERROR)
  }

  /** The end of the cycle of the chain at index i. For a real frame the
      outcome is applied, the flag is lowered and the chain rescheduled. A
      blank frame throws past all of that, before any request, whatever the
      server would have said: the flag stays raised and the chain ends. */
  function Complete(p: Page, i: nat, o: Outcome): Page
    requires i < |p.chains| && p.chains[i].InFlight?
  {
    if p.chains[i].blank then p.(chains := p.chains[i := Ended])
    else Apply(p, o).(processing := false, chains := p.chains[i := Waiting])
  }

  /** The Stop handler: the tracks stop, the video loses its source (which
      pauses it and drops any pending metadata), the canvas is cleared, and
      the list, status, buttons, alarm visuals and sound take fixed values.
      The flag and the chains are not touched. */
  function Stop(p: Page): Page
  {
    p.(cameraOn := false, metadataPending := false, videoPaused := true,
       drawings := [], rows := [Placeholder], status := STATUS_OFFLINE, stopShown := false,
       alertShown := false, bodyAlert := false, audioPlaying := false, audioPosition := 0.0)
  }

  // ---------------------------------------------------------------------------
  // Single flight

  function Indicator(c: Chain): nat
  {
    if c.InFlight? then 1 else 0
  }

  /** The number of chains that are inside a cycle. */
  function InFlightCount(cs: seq<Chain>): nat
  {
    if cs == [] then 0 else InFlightCount(cs[..|cs| - 1]) + Indicator(cs[|cs| - 1])
  }

  /** The invariant of the loop: while the flag is down no chain is inside
      a cycle, and while it is up at most one is. */
  predicate SingleFlight(p: Page)
  {
    InFlightCount(p.chains) <= if p.processing then 1 else 0
  }

  /** Replacing one chain's state changes the count by the difference. */
  lemma {:induction false} CountUpdate(cs: seq<Chain>, i: nat, c: Chain)
    requires i < |cs|
    ensures InFlightCount(cs[i := c]) + Indicator(cs[i]) == InFlightCount(cs) + Indicator(c)
  {
    var last := |cs| - 1;
    var ds := cs[i := c];
    assert ds[..last] == if i < last then cs[..last][i := c] else cs[..last];
    if i < last {
      CountUpdate(cs[..last], i, c);
    }
  }

  /** A newly added chain is waiting, so it does not change the count. */
  lemma CountAppendWaiting(cs: seq<Chain>)
    ensures InFlightCount(cs + [Waiting]) == InFlightCount(cs)
  {
    assert (cs + [Waiting])[..|cs|] == cs;
  }

  /** A chain inside a cycle is counted. */
  lemma {:induction false} CountPositive(cs: seq<Chain>, i: nat)
    requires i < |cs| && cs[i].InFlight?
    ensures InFlightCount(cs) >= 1
  {
    var last := |cs| - 1;
    if i < last {
      assert cs[..last][i].InFlight?;
      CountPositive(cs[..last], i);
    }
  }

  /** A count of one means one chain only: two chains inside a cycle are the
      same chain. */
  lemma {:induction false} CountOneUnique(cs: seq<Chain>, i: nat, j: nat)
    requires InFlightCount(cs) <= 1
    requires i < |cs| && j < |cs| && cs[i].InFlight? && cs[j].InFlight?
    ensures i == j
  {
    var last := |cs| - 1;
    if i < last && j < last {
      assert cs[..last][i].InFlight? && cs[..last][j].InFlight?;
      CountOneUnique(cs[..last], i, j);
    } else if i < last {
      assert cs[..last][i].InFlight?;
      CountPositive(cs[..last], i);
    } else if j < last {
      assert cs[..last][j].InFlight?;
      CountPositive(cs[..last], j);
    }
  }

  /** A tick begins a cycle exactly when the video plays and the flag is
      down; a cycle that begins raises the flag, clears the canvas and is
      blank exactly when the metadata is still pending; a tick with the gate
      closed changes nothing, leaving the chain waiting for its next frame. */
  lemma TickGate(p: Page, i: nat)
    requires i < |p.chains| && p.chains[i] == Waiting
    ensures Tick(p, i).chains[i].InFlight? <==> !p.videoPaused && !p.processing
    ensures !p.videoPaused && !p.processing ==>
      Tick(p, i).processing && Tick(p, i).drawings == [] &&
      Tick(p, i).chains == p.chains[i := InFlight(p.metadataPending)]
    ensures p.videoPaused || p.processing ==> Tick(p, i) == p
  {
  }

  /** While any chain is inside a cycle, a tick of another chain, however
      many chains there are, does nothing. */
  lemma NoSecondCycle(p: Page, i: nat, j: nat)
    requires SingleFlight(p)
    requires i < |p.chains| && p.chains[i] == Waiting
    requires j < |p.chains| && p.chains[j].InFlight?
    ensures Tick(p, i) == p
  {
    CountPositive(p.chains, j);
  }

  /** For a real frame, completion on the reply path and on the handled
      error path lowers the flag and reschedules the chain. */
  lemma CompleteReopensGate(p: Page, i: nat, o: Outcome)
    requires i < |p.chains| && p.chains[i] == InFlight(false)
    ensures !Complete(p, i, o).processing
    ensures Complete(p, i, o).chains == p.chains[i := Waiting]
  {
  }

  /** A blank frame, whatever the outcome of the request would have been,
      leaves the flag raised with no cycle in flight and ends the chain. */
  lemma BlankFrameJamsGate(p: Page, i: nat, o: Outcome)
    requires SingleFlight(p)
    requires i < |p.chains| && p.chains[i] == InFlight(true)
    ensures var q := Complete(p, i, o);
      q.processing && InFlightCount(q.chains) == 0 && q.chains[i] == Ended
  {
    CountPositive(p.chains, i);
    CountUpdate(p.chains, i, Ended);
  }

  /** Every cycle that begins while the stream's metadata is pending jams
      the gate when it ends. */
  lemma CycleBeforeMetadataJams(p: Page, i: nat, o: Outcome)
    requires SingleFlight(p)
    requires i < |p.chains| && p.chains[i] == Waiting
    requires !p.videoPaused && !p.processing && p.metadataPending
    ensures var q := Complete(Tick(p, i), i, o);
      q.processing && InFlightCount(q.chains) == 0
  {
    CountUpdate(p.chains, i, InFlight(true));
    BlankFrameJamsGate(Tick(p, i), i, o);
  }

  // ---------------------------------------------------------------------------
  // Event traces

  /** What can happen to the page: a press of Start (with camera access
      granted or not), the stream's metadata loading, an animation frame for
      a waiting chain, the end of a chain's cycle, a press of Stop. */
  datatype Event =
    | PressStart(granted: bool)
    | MetadataLoaded
    | Frame(chain: nat)
    | Settle(chain: nat, outcome: Outcome)
    | PressStop

  /** Whether the event can occur in this state: metadata loads only for an
      attached stream, a frame arrives only for a waiting chain, a reply only
      for a chain inside a cycle. */
  predicate Enabled(p: Page, e: Event)
  {
    match e
    case PressStart(_) => true
    case MetadataLoaded => p.metadataPending
    case Frame(i) => i < |p.chains| && p.chains[i] == Waiting
    case Settle(i, _) => i < |p.chains| && p.chains[i].InFlight?
    case PressStop => true
  }

  /** The effect of one event; an event that cannot occur leaves the page as it is. */
  function Step(p: Page, e: Event): Page
  {
    if !Enabled(p, e) then p
    else match e
      case PressStart(granted) => Start(p, granted)
      case MetadataLoaded => LoadMetadata(p)
      case Frame(i) => Tick(p, i)
      case Settle(i, o) => Complete(p, i, o)
      case PressStop => Stop(p)
  }

  /** The page after a sequence of events. */
  function Run(p: Page, es: seq<Event>): Page
    decreases |es|
  {
    if es == [] then p else Run(Step(p, es[0]), es[1..])
  }

  /** Every event keeps the single-flight invariant and never removes a
      chain. */
  lemma StepKeepsSingleFlight(p: Page, e: Event)
    requires SingleFlight(p)
    ensures SingleFlight(Step(p, e))
    ensures |Step(p, e).chains| >= |p.chains|
  {
    if Enabled(p, e) {
      match e
      case PressStart(_) =>
      case MetadataLoaded =>
        var q := p.(metadataPending := false, chains := p.chains + [Waiting]);
        CountAppendWaiting(p.chains);
        if !q.videoPaused && !q.processing {
          CountUpdate(q.chains, |p.chains|, InFlight(q.metadataPending));
        }
      case Frame(i) =>
        if !p.videoPaused && !p.processing {
          CountUpdate(p.chains, i, InFlight(p.metadataPending));
        }
      case Settle(i, o) =>
        CountPositive(p.chains, i);
        CountUpdate(p.chains, i, if p.chains[i].blank then Ended else Waiting);
      case PressStop =>
    }
  }

  /** The invariant holds after any interleaving of presses, loads, frames
      and replies, across any number of chains, and chains only accumulate. */
  lemma {:induction false} RunKeepsSingleFlight(p: Page, es: seq<Event>)
    requires SingleFlight(p)
    ensures SingleFlight(Run(p, es))
    ensures |Run(p, es).chains| >= |p.chains|
    decreases |es|
  {
    if es != [] {
      StepKeepsSingleFlight(p, es[0]);
      RunKeepsSingleFlight(Step(p, es[0]), es[1..]);
    }
  }

  /** From the initial page, whatever happens, at most one cycle is in
      flight, and the flag is up while one is. */
  lemma MutualExclusion(es: seq<Event>, i: nat, j: nat)
    requires var q := Run(Initial(), es);
      i < |q.chains| && j < |q.chains| && q.chains[i].InFlight? && q.chains[j].InFlight?
    ensures i == j
    ensures Run(Initial(), es).processing
  {
    assert InFlightCount([]) == 0;
    RunKeepsSingleFlight(Initial(), es);
    var q := Run(Initial(), es);
    CountPositive(q.chains, i);
    CountOneUnique(q.chains, i, j);
  }

  // ---------------------------------------------------------------------------
  // Results, errors and Stop

  /** A reply empties the list and refills it with one row per detection in
      order, replaces the boxes with one drawing per detection, and raises
      the alarm exactly when some detection is of the alarm class; the status
      stays as it was. */
  lemma ReplyRendersAndDecidesAlarm(p: Page, i: nat, ds: seq<Detection>)
    requires i < |p.chains| && p.chains[i] == InFlight(false)
    ensures var q := Complete(p, i, Received(ds));
      |q.rows| == |ds| && (forall k :: 0 <= k < |ds| ==> q.rows[k] == RowOf(ds[k])) &&
      |q.drawings| == |ds| && (forall k :: 0 <= k < |ds| ==> q.drawings[k] == DrawingOf(ds[k]))
    ensures var q := Complete(p, i, Received(ds));
      var alert := exists k :: 0 <= k < |ds| && IsAlarmClass(ds[k]);
      q.alertShown == alert && q.bodyAlert == alert && q.audioPlaying == alert &&
      (alert ==> q.audioPosition == p.audioPosition) && (!alert ==> q.audioPosition == 0.0)
    ensures Complete(p, i, Received(ds)).status == p.status
  {
    var cleared := p.(rows := Rows(ds), drawings := Drawings(ds));
    assert Complete(p, i, Received(ds)) ==
      Alarm(cleared, AnyAlarm(ds)).(processing := false, chains := p.chains[i := Waiting]);
    RowsMatchDetections(ds);
    DrawingsMatchDetections(ds);
    AnyAlarmIff(ds);
  }

  /** A failed cycle changes the status and nothing the user sees besides:
      list, canvas, overlay and sound stay, so a raised alarm persists. */
  lemma FailureOnlySetsStatus(p: Page, i: nat)
    requires i < |p.chains| && p.chains[i] == InFlight(false)
    ensures var q := Complete(p, i, Failed);
      q.status == STATUS_NETWORK_ERROR &&
      q.rows == p.rows && q.drawings == p.drawings &&
      q.alertShown == p.alertShown && q.bodyAlert == p.bodyAlert &&
      q.audioPlaying == p.audioPlaying && q.audioPosition == p.audioPosition
  {
  }

  /** Stop gives every part of the interface and of the alarm one fixed
      value, whatever the page was, so a second Stop repeats the first. */
  lemma StopIsIdempotent(p: Page)
    ensures Stop(Stop(p)) == Stop(p)
    ensures var q := Stop(p);
      !q.cameraOn && q.videoPaused && !q.alertShown && !q.bodyAlert &&
      !q.audioPlaying && q.audioPosition == 0.0 &&
      q.rows == [Placeholder] && q.drawings == [] && q.status == STATUS_OFFLINE && !q.stopShown
    ensures Stop(p).processing == p.processing && Stop(p).chains == p.chains
  {
  }

  /** The canvas a failure leaves in place is the one the cycle cleared when
      it began: after a failed cycle the list still shows the earlier rows
      but the canvas shows no box. */
  lemma FailedCycleShowsNoBoxes(p: Page, i: nat)
    requires i < |p.chains| && p.chains[i] == Waiting
    requires !p.videoPaused && !p.processing && !p.metadataPending
    ensures var q := Complete(Tick(p, i), i, Failed);
      q.drawings == [] && q.rows == p.rows && q.status == STATUS_NETWORK_ERROR && !q.processing
  {
  }

  /** In the state Stop leaves, a tick of any waiting chain does nothing. */
  lemma StoppedLoopIsIdle(p: Page, i: nat)
    requires i < |p.chains| && p.chains[i] == Waiting
    ensures Tick(Stop(p), i) == Stop(p)
  {
  }

  /** Auxiliary: applying an outcome does not touch the video or its
      metadata. */
  lemma ApplyKeepsLoop(p: Page, o: Outcome)
    ensures Apply(p, o).videoPaused == p.videoPaused && Apply(p, o).metadataPending == p.metadataPending
  {
    match o {
      case Received(ds) =>
        var c := p.(rows := Rows(ds), drawings := Drawings(ds));
        assert c.videoPaused == p.videoPaused && c.metadataPending == p.metadataPending;
        var alert := AnyAlarm(ds);
        assert Apply(p, o) == Alarm(c, alert);
      case Failed =>
    }
  }

  /** The end of a cycle, on any path, leaves the video's state as it was
      and takes the count of cycles in flight down by one. */
  lemma CompleteEndsOneCycle(p: Page, i: nat, o: Outcome)
    requires i < |p.chains| && p.chains[i].InFlight?
    ensures var q := Complete(p, i, o);
      q.videoPaused == p.videoPaused && q.metadataPending == p.metadataPending &&
      InFlightCount(q.chains) + 1 == InFlightCount(p.chains)
  {
    var q := Complete(p, i, o);
    if p.chains[i].blank {
      assert q.chains == p.chains[i := Ended];
      CountUpdate(p.chains, i, Ended);
    } else {
      ApplyKeepsLoop(p, o);
      assert q.chains == p.chains[i := Waiting];
      CountUpdate(p.chains, i, Waiting);
    }
  }

  /** One event other than a granted Start, with the video paused and no
      metadata pending, keeps it so and begins no cycle. */
  lemma StepWhileStopped(p: Page, e: Event)
    requires p.videoPaused && !p.metadataPending && e != PressStart(true)
    ensures var q := Step(p, e);
      q.videoPaused && !q.metadataPending && InFlightCount(q.chains) <= InFlightCount(p.chains)
  {
    if e.Settle? && Enabled(p, e) {
      CompleteEndsOneCycle(p, e.chain, e.outcome);
    }
  }

  /** Once the video is paused with no metadata pending (as Stop leaves it),
      no cycle begins until Start succeeds again: over any events without a
      granted Start, the video stays paused and the number of cycles in
      flight never grows; late replies only end cycles. */
  lemma {:induction false} StoppedLoopStaysIdle(p: Page, es: seq<Event>)
    requires p.videoPaused && !p.metadataPending
    requires forall k :: 0 <= k < |es| ==> es[k] != PressStart(true)
    ensures var q := Run(p, es);
      q.videoPaused && !q.metadataPending && InFlightCount(q.chains) <= InFlightCount(p.chains)
    decreases |es|
  {
    if es != [] {
      StepWhileStopped(p, es[0]);
      var rest := es[1..];
      assert forall k :: 0 <= k < |rest| ==> rest[k] == es[k + 1];
      StoppedLoopStaysIdle(Step(p, es[0]), rest);
    }
  }

  /** A reply that arrives after Stop is not discarded: its boxes and rows
      are shown and an alarm-class detection raises the alarm and the sound
      on the stopped page, whose status still reads Offline. */
  lemma LateReplyIsApplied(p: Page, i: nat, ds: seq<Detection>)
    requires i < |p.chains| && p.chains[i] == InFlight(false)
    requires exists k :: 0 <= k < |ds| && IsAlarmClass(ds[k])
    ensures var q := Complete(Stop(p), i, Received(ds));
      q.alertShown && q.audioPlaying && q.status == STATUS_OFFLINE && |q.rows| == |ds|
  {
    ReplyRendersAndDecidesAlarm(Stop(p), i, ds);
  }

  /** Once the flag is raised with no cycle in flight, it stays so whatever
      happens next: every tick of every chain, on every later Start, finds the
      gate closed, and no detection cycle ever runs again. */
  lemma {:induction false} JammedGateStaysJammed(p: Page, es: seq<Event>)
    requires p.processing && InFlightCount(p.chains) == 0
    ensures Run(p, es).processing && InFlightCount(Run(p, es).chains) == 0
    decreases |es|
  {
    if es != [] {
      var e := es[0];
      if Enabled(p, e) {
        match e
        case PressStart(_) =>
        case MetadataLoaded =>
          CountAppendWaiting(p.chains);
        case Frame(i) =>
        case Settle(i, o) =>
          CountPositive(p.chains, i);
        case PressStop =>
      }
      JammedGateStaysJammed(Step(p, e), es[1..]);
    }
  }

  /** Running from the k-th event is taking that event and running on. */
  lemma RunUnfolds(p: Page, es: seq<Event>, k: nat)
    requires k < |es|
    ensures Run(p, es[k..]) == Run(Step(p, es[k]), es[k + 1..])
  {
    assert es[k..][1..] == es[k + 1..];
  }

  /** How the gate jams: Start, the first cycle, Stop, Start again; the old
      chain's next frame comes before the new stream's metadata, so the
      video plays at a size of zero and its frame encodes to nothing,
      whatever the server would have replied. */
  lemma RestartBeforeMetadataCanJam(o: Outcome)
    ensures var q := Run(Initial(), [PressStart(true), MetadataLoaded, Settle(0, Received([])),
                                     PressStop, PressStart(true), Frame(0), Settle(0, o)]);
      q.processing && InFlightCount(q.chains) == 0 && q.metadataPending
  {
    var es := [PressStart(true), MetadataLoaded, Settle(0, Received([])),
               PressStop, PressStart(true), Frame(0), Settle(0, o)];
    var p0 := Initial();
    var p1 := Step(p0, PressStart(true));
    var p2 := Step(p1, MetadataLoaded);
    assert p2.chains == [InFlight(false)];
    var p3 := Step(p2, Settle(0, Received([])));
    assert p3.chains == [Waiting] && !p3.processing;
    var p4 := Step(p3, PressStop);
    var p5 := Step(p4, PressStart(true));
    assert p5.chains == [Waiting] && !p5.videoPaused && !p5.processing && p5.metadataPending;
    var p6 := Step(p5, Frame(0));
    assert p6.chains == [InFlight(true)] && p6.processing && p6.metadataPending;
    assert Enabled(p6, Settle(0, o));
    assert p6.chains[0].blank;
    var p7 := Step(p6, Settle(0, o));
    assert p7 == Complete(p6, 0, o);
    assert p7.chains == [Ended] && p7.processing && p7.metadataPending;
    assert InFlightCount(p7.chains) == InFlightCount([]) + Indicator(Ended);
    assert es[7..] == [];
    RunUnfolds(p6, es, 6);
    RunUnfolds(p5, es, 5);
    RunUnfolds(p4, es, 4);
    RunUnfolds(p3, es, 3);
    RunUnfolds(p2, es, 2);
    RunUnfolds(p1, es, 1);
    RunUnfolds(p0, es, 0);
  }
}

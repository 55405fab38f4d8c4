// The browser client as an object whose fields are the module-level flags
// and the page state its handlers change in place. Each handler is a method
// whose new state is the corresponding transition of the Controller state
// machine, and every handler keeps the single-flight invariant.

module Client {
  import opened Render
  import opened Controller

  class DetectionLoop {
    var cameraOn: bool
    var metadataPending: bool
    var videoPaused: bool
    var processing: bool
    var chains: seq<Chain>
    var alertShown: bool
    var bodyAlert: bool
    var audioPlaying: bool
    var audioPosition: real
    var rows: seq<Row>
    var drawings: seq<Drawing>
    var status: string
    var stopShown: bool

    /** The fields as one value of the state machine. */
    ghost function Snapshot(): Page
      reads this
    {
      Page(cameraOn, metadataPending, videoPaused, processing, chains,
           alertShown, bodyAlert, audioPlaying, audioPosition,
           rows, drawings, status, stopShown)
    }

    ghost predicate Valid()
      reads this
    {
      SingleFlight(Snapshot())
    }

    /** The page as loaded, before any button is pressed. */
    constructor ()
      ensures Valid()
      ensures Snapshot() == Initial()
    {
      cameraOn, metadataPending, videoPaused, processing, chains := false, false, true, false, [];
      alertShown, bodyAlert, audioPlaying, audioPosition := false, false, false, 0.0;
      rows, drawings, status, stopShown := [Placeholder], [], STATUS_OFFLINE, false;
    }

    /** The Start button; `granted` is whether camera access succeeded. */
    method PressStart(granted: bool)
      requires Valid()
      modifies this
      ensures Valid()
      ensures Snapshot() == Start(old(Snapshot()), granted)
    {
      if granted {
        cameraOn, metadataPending, videoPaused := true, true, false;
        status := STATUS_ACTIVE;
        stopShown := true;
        bodyAlert := false;
        rows := [];
      } else {
        status := STATUS_CAMERA_DENIED;
      }
    }

    /** One call of detectFrame by chain i: the single-flight gate. */
    method DetectFrame(i: nat)
      requires Valid()
      requires i < |chains| && chains[i] == Waiting
      modifies this
      ensures Valid()
      ensures Snapshot() == Tick(old(Snapshot()), i)
    {
      if !videoPaused && !processing {
        CountUpdate(chains, i, InFlight(metadataPending));
        processing := true;
        chains := chains[i := InFlight(metadataPending)];
        drawings := [];
      }
    }

    /** The video's loadedmetadata handler: a new chain calls detectFrame. */
    method MetadataLoaded()
      requires Valid()
      requires metadataPending
      modifies this
      ensures Valid()
      ensures Snapshot() == LoadMetadata(old(Snapshot()))
    {
      metadataPending := false;
      CountAppendWaiting(chains);
      chains := chains + [Waiting];
      DetectFrame(|chains| - 1);
    }

    /** The loop over a reply's detections: the canvas's boxes and the list
        are emptied and then get one drawing and one row per detection, in
        order; the result says whether an alarm-class detection was seen. */
    method RenderDetections(ds: seq<Detection>) returns (alarmSeen: bool)
      modifies this`rows, this`drawings
      ensures rows == Rows(ds) && drawings == Drawings(ds)
      ensures alarmSeen == AnyAlarm(ds)
    {
      drawings := [];
      rows := [];
      alarmSeen := false;
      for k := 0 to |ds|
        invariant rows == Rows(ds[..k]) && drawings == Drawings(ds[..k])
        invariant alarmSeen == AnyAlarm(ds[..k])
      {
        assert ds[..k + 1][..k] == ds[..k];
        var d := ds[k];
        var alarm := IsAlarmClass(d);
        if alarm {
          alarmSeen := true;
        }
        drawings := drawings + [DrawingOf(d)];
        rows := rows + [Item(d.cls, d.confidence, alarm)];
      }
      assert ds[..|ds|] == ds;
    }

    /** The alarm branch: ALERT or CLEAR. */
    method SetAlarm(alert: bool)
      modifies this`alertShown, this`bodyAlert, this`audioPlaying, this`audioPosition
      ensures Snapshot() == Alarm(old(Snapshot()), alert)
    {
      if alert {
        alertShown, bodyAlert := true, true;
        audioPlaying := true;
      } else {
        alertShown, bodyAlert := false, false;
        audioPlaying := false;
        audioPosition := 0.0;
      }
    }

    /** What a reply or a failure does to the page: on a reply the canvas
        and the list are rebuilt detection by detection and the alarm is
        decided; on a failure the status is set. */
    method ApplyOutcome(o: Outcome)
      modifies this`rows, this`drawings, this`status
      modifies this`alertShown, this`bodyAlert, this`audioPlaying, this`audioPosition
      ensures Snapshot() == Apply(old(Snapshot()), o)
    {
      match o {
        case Received(ds) =>
          var alarmSeen := RenderDetections(ds);
          SetAlarm(alarmSeen);
        case Failed =>
          status := STATUS_NETWORK_ERROR;
      }
    }

    /** The rest of chain i's cycle once it resumes. For a real frame the
        outcome of the request is applied, the flag is lowered and the chain
        rescheduled; a blank frame throws and ends the chain with the flag
        still raised. */
    method Settle(i: nat, o: Outcome)
      requires Valid()
      requires i < |chains| && chains[i].InFlight?
      modifies this
      ensures Valid()
      ensures Snapshot() == Complete(old(Snapshot()), i, o)
    {
      CountPositive(chains, i);
      if chains[i].blank {
        CountUpdate(chains, i, Ended);
        chains := chains[i := Ended];
        return;
      }
      ApplyOutcome(o);
      CountUpdate(chains, i, Waiting);
      processing := false;
      chains := chains[i := Waiting];
    }

    /** The Stop button. */
    method PressStop()
      requires Valid()
      modifies this
      ensures Valid()
      ensures Snapshot() == Stop(old(Snapshot()))
    {
      cameraOn := false;
      metadataPending, videoPaused := false, true;
      drawings := [];
      rows := [Placeholder];
      status := STATUS_OFFLINE;
      stopShown := false;
      alertShown, bodyAlert := false, false;
      audioPlaying := false;
      audioPosition := 0.0;
      assert chains == old(chains) && processing == old(processing);
    }
  }
}

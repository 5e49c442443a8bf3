/**
 * Gesture templates (FOpenXRGesture and its five finger requirements), the
 * hand-side bit test, and the authoring-time validator of a gesture database.
 */
module HandGestures {
  import opened HandJoints

  /** FName, with NAME_None as its own case. Names compare by their text. */
  datatype Name = NoName | Named(text: string)

  /** EOpenXRGestureFingerState */
  datatype FingerState = Invalid | Ignored | Closed | Extended

  /** The enumerator's underlying value. */
  function FingerStateCode(s: FingerState): (c: nat)
    ensures c < 4
    ensures c == 0 <==> s == Invalid
  {
    match s
    case Invalid => 0
    case Ignored => 1
    case Closed => 2
    case Extended => 3
  }

  /** The enumerator with a given underlying value. */
  function FingerStateOfCode(c: nat): (s: FingerState)
    requires c < 4
    ensures FingerStateCode(s) == c
  {
    if c == 0 then Invalid else if c == 1 then Ignored else if c == 2 then Closed else Extended
  }

  /** The four enumerators have four distinct codes, so the code determines the state. */
  lemma FingerStateCodeInjective(s: FingerState, t: FingerState)
    ensures FingerStateCode(s) == FingerStateCode(t) <==> s == t
    ensures FingerStateOfCode(FingerStateCode(s)) == s
  {
  }

  /** FOpenXRGestureFinger: the two-argument constructor stores exactly the given state and joint. */
  datatype GestureFinger = GestureFinger(fingerState: FingerState, indexType: nat)

  /** The default FOpenXRGestureFinger. */
  function DefaultFinger(): (f: GestureFinger)
    ensures FingerStateCode(f.fingerState) == 0 && IsTip(f.indexType) && f.indexType == INDEX_TIP
  {
    GestureFinger(Invalid, INDEX_TIP)
  }

  /**
   * EOpenXRGestureHand, as its integer code. The enumeration is a set of
   * side bits; its declaration is not part of this model, and the code of
   * OXR_GESTURE_HAND_INVALID is taken to be 0.
   */
  newtype HandCode = x: int | 0 <= x < 256

  const HAND_INVALID: HandCode := 0

  /** `operator&` on two hands: their codes share a bit. */
  function HandsOverlap(a: HandCode, b: HandCode): (r: bool)
    ensures a == HAND_INVALID || b == HAND_INVALID ==> !r
    ensures a == b ==> (r <==> a != HAND_INVALID)
  {
    (a as bv8) & (b as bv8) != 0
  }

  /** The bit test does not depend on the order of its operands. */
  lemma HandsOverlapSymmetric(a: HandCode, b: HandCode)
    ensures HandsOverlap(a, b) == HandsOverlap(b, a)
  {
    assert (a as bv8) & (b as bv8) == (b as bv8) & (a as bv8);
  }

  /** FOpenXRGesture. `displayName` and `hand` are declared outside the shown header. */
  datatype Gesture = Gesture(name: Name, displayName: string, hand: HandCode, fingerValues: seq<GestureFinger>)

  /** InitPoseValues: every finger ignored, keyed by the thumb, index, middle, ring and little tips. */
  function DefaultFingerValues(): (fs: seq<GestureFinger>)
    ensures |fs| == 5
    ensures forall k :: 0 <= k < 5 ==> fs[k].fingerState == Ignored
    ensures forall k :: 0 <= k < 5 ==> fs[k].indexType == THUMB_TIP + 5 * k && IsTip(fs[k].indexType)
  {
    [GestureFinger(Ignored, THUMB_TIP), GestureFinger(Ignored, INDEX_TIP), GestureFinger(Ignored, MIDDLE_TIP),
     GestureFinger(Ignored, RING_TIP), GestureFinger(Ignored, LITTLE_TIP)]
  }

  /** A default-constructed FOpenXRGesture, given the defaults of the fields declared elsewhere. */
  function DefaultGesture(displayName: string, hand: HandCode): (g: Gesture)
    ensures g.name == NoName && |g.fingerValues| == 5
    ensures forall k :: 0 <= k < 5 ==> g.fingerValues[k].fingerState == Ignored
  {
    Gesture(NoName, displayName, hand, DefaultFingerValues())
  }

  /** EDataValidationResult (only the two values IsDataValid produces). */
  datatype DataValidationResult = DataValid | DataInvalid

  /** One entry added to the FDataValidationContext, identified by its localisation key. */
  datatype Severity = Error | Warning
  datatype MessageKey = InvalidName | EmptyDisplayName | InvalidHand
  datatype Report = Report(severity: Severity, key: MessageKey)

  const INVALID_NAME_REPORT := Report(Error, InvalidName)
  const EMPTY_DISPLAY_NAME_REPORT := Report(Warning, EmptyDisplayName)
  const INVALID_HAND_REPORT := Report(Error, InvalidHand)

  /** The three checks one gesture must pass. */
  predicate GestureValid(g: Gesture) {
    g.name != NoName && |g.displayName| >= 1 && g.hand != HAND_INVALID
  }

  /** What the validator reports for one gesture, in the order it checks. */
  function GestureReports(g: Gesture): (rs: seq<Report>)
    ensures |rs| <= 3
    ensures rs == [] <==> GestureValid(g)
  {
    (if g.name == NoName then [INVALID_NAME_REPORT] else [])
    + (if |g.displayName| < 1 then [EMPTY_DISPLAY_NAME_REPORT] else [])
    + (if g.hand == HAND_INVALID then [INVALID_HAND_REPORT] else [])
  }

  /** Each report is present exactly when its check fails. */
  lemma GestureReportsExplainFailures(g: Gesture)
    ensures INVALID_NAME_REPORT in GestureReports(g) <==> g.name == NoName
    ensures EMPTY_DISPLAY_NAME_REPORT in GestureReports(g) <==> |g.displayName| < 1
    ensures INVALID_HAND_REPORT in GestureReports(g) <==> g.hand == HAND_INVALID
  {
  }

  /** Everything the validator reports for a list of gestures, gesture by gesture. */
  function DatabaseReports(gs: seq<Gesture>): seq<Report>
  {
    if |gs| == 0 then [] else DatabaseReports(gs[..|gs| - 1]) + GestureReports(gs[|gs| - 1])
  }

  /** UOpenXRGestureDatabase */
  class GestureDatabase {
    var gestures: seq<Gesture>

    constructor ()
      ensures gestures == []
    {
      gestures := [];
    }

    /** Examines every gesture and reports every failing check; there is no early exit. */
    method IsDataValid() returns (result: DataValidationResult, reports: seq<Report>)
      ensures reports == DatabaseReports(gestures)
      ensures result == DataValid <==> forall k :: 0 <= k < |gestures| ==> GestureValid(gestures[k])
    {
      result := DataValid;
      reports := [];
      var gs := gestures;
      var i := 0;
      while i < |gs|
        invariant 0 <= i <= |gs|
        invariant reports == DatabaseReports(gs[..i])
        invariant result == DataValid <==> reports == []
      {
        var gesture := gs[i];
        ghost var before := reports;
        if gesture.name == NoName {
          reports := reports + [INVALID_NAME_REPORT];
          result := DataInvalid;
        }
        if |gesture.displayName| < 1 {
          reports := reports + [EMPTY_DISPLAY_NAME_REPORT];
          result := DataInvalid;
        }
        if gesture.hand == HAND_INVALID {
          reports := reports + [INVALID_HAND_REPORT];
          result := DataInvalid;
        }
        assert reports == before + GestureReports(gesture);
        assert gs[..i + 1][..i] == gs[..i];
        i := i + 1;
      }
      assert gs[..i] == gs;
      NoReportsIffAllValid(gs);
    }
  }

  /** The reports of two lists back to back are the reports of their concatenation. */
  lemma {:induction false} DatabaseReportsAppend(a: seq<Gesture>, b: seq<Gesture>)
    ensures DatabaseReports(a + b) == DatabaseReports(a) + DatabaseReports(b)
    decreases |b|
  {
    if |b| == 0 {
      assert a + b == a;
    } else {
      var b' := b[..|b| - 1];
      assert (a + b)[..|a + b| - 1] == a + b';
      DatabaseReportsAppend(a, b');
    }
  }

  /** Every gesture's own reports appear, in place, in the database's reports. */
  lemma EveryGestureReported(before: seq<Gesture>, g: Gesture, after: seq<Gesture>)
    ensures DatabaseReports(before + [g] + after) == DatabaseReports(before) + GestureReports(g) + DatabaseReports(after)
  {
    var p := before + [g];
    assert p[..|p| - 1] == before && p[|p| - 1] == g;
    assert DatabaseReports(p) == DatabaseReports(before) + GestureReports(g);
    DatabaseReportsAppend(p, after);
  }

  /** The database reports nothing exactly when every gesture passes; an empty database reports nothing. */
  lemma {:induction false} NoReportsIffAllValid(gs: seq<Gesture>)
    ensures DatabaseReports(gs) == [] <==> forall k :: 0 <= k < |gs| ==> GestureValid(gs[k])
    decreases |gs|
  {
    if |gs| > 0 {
      var init := gs[..|gs| - 1];
      NoReportsIffAllValid(init);
      assert forall k :: 0 <= k < |init| ==> init[k] == gs[k];
    }
  }

  /**
   * The validator looks at the name, the display name and the hand only: a
   * gesture whose five fingers are all still Ignored passes it.
   */
  lemma AllIgnoredGesturePasses(text: string, displayName: string, hand: HandCode)
    requires |displayName| >= 1 && hand != HAND_INVALID
    ensures var g := DefaultGesture(displayName, hand).(name := Named(text));
      && (forall k :: 0 <= k < |g.fingerValues| ==> g.fingerValues[k].fingerState == Ignored)
      && GestureReports(g) == []
  {
  }

  /** An empty display name makes the result Invalid although it is reported only as a warning. */
  lemma EmptyDisplayNameIsOnlyAWarning(g: Gesture)
    requires g.name != NoName && g.hand != HAND_INVALID && |g.displayName| == 0
    ensures GestureReports(g) == [EMPTY_DISPLAY_NAME_REPORT]
    ensures !GestureValid(g)
    ensures forall r :: r in GestureReports(g) ==> r.severity == Warning
  {
  }
}

/**
 * The per-source gesture input state (FOpenXRHandGestureInputState): the
 * user and device ids it reports events under, a weak reference to its hand
 * pose component, and one button flag per gesture name.
 */
module GestureInput {
  import opened HandGestures
  import opened HandPose

  /** The distinct names of a list of gestures (NAME_None included when present). */
  function GestureNames(gestures: seq<Gesture>): (names: set<Name>)
    ensures forall k :: 0 <= k < |gestures| ==> gestures[k].name in names
    ensures forall n :: n in names ==> exists k :: 0 <= k < |gestures| && gestures[k].name == n
  {
    set k | 0 <= k < |gestures| :: gestures[k].name
  }

  /** The button table a new input state starts with: one released button per gesture name. */
  function SeededButtonStates(gestures: seq<Gesture>): (m: map<Name, bool>)
    ensures m.Keys == GestureNames(gestures)
    ensures forall n :: n in m ==> !m[n]
  {
    map n | n in GestureNames(gestures) :: false
  }

  /** FOpenXRHandGestureInputState */
  class GestureInputState {
    const platformUserId: int
    const inputDeviceId: int
    const handPoseComponent: HandPoseComponent
    var gestureButtonStates: map<Name, bool>

    /**
     * `live` is the set of components the engine still holds; the constructor
     * demands (check) that the component is among them. The two ids are
     * supplied by the caller.
     */
    constructor (inHandPoseComponent: HandPoseComponent, live: set<HandPoseComponent>, platformUserId: int, inputDeviceId: int)
      requires inHandPoseComponent in live
      ensures handPoseComponent == inHandPoseComponent
      ensures this.platformUserId == platformUserId && this.inputDeviceId == inputDeviceId
      ensures inHandPoseComponent.gesturesDB == null ==> gestureButtonStates == map[]
      ensures inHandPoseComponent.gesturesDB != null ==>
        gestureButtonStates == SeededButtonStates(inHandPoseComponent.gesturesDB.gestures)
    {
      handPoseComponent := inHandPoseComponent;
      this.platformUserId := platformUserId;
      this.inputDeviceId := inputDeviceId;

      var states: map<Name, bool> := map[];
      if inHandPoseComponent.gesturesDB != null {
        var gestures := inHandPoseComponent.gesturesDB.gestures;
        var i := 0;
        while i < |gestures|
          invariant i <= |gestures|
          invariant states == SeededButtonStates(gestures[..i])
        {
          states := states[gestures[i].name := false];
          assert GestureNames(gestures[..i + 1]) == GestureNames(gestures[..i]) + {gestures[i].name} by {
            assert gestures[..i + 1] == gestures[..i] + [gestures[i]];
          }
          i := i + 1;
        }
        assert gestures[..i] == gestures;
      }
      gestureButtonStates := states;
    }

    /** The weak reference is still valid. */
    predicate IsValid(live: set<HandPoseComponent>)
    {
      handPoseComponent in live
    }

    function GetHandPoseComponent(live: set<HandPoseComponent>): (c: HandPoseComponent?)
      ensures c != null <==> IsValid(live)
      ensures c != null ==> c == handPoseComponent
    {
      if handPoseComponent in live then handPoseComponent else null
    }

    method GetGestureButtonState(gestureName: Name) returns (state: bool)
      requires gestureName in gestureButtonStates
      ensures state == gestureButtonStates[gestureName]
    {
      state := gestureButtonStates[gestureName];
    }

    method SetGestureButtonState(gestureName: Name, state: bool)
      requires gestureName in gestureButtonStates
      modifies this
      ensures gestureButtonStates.Keys == old(gestureButtonStates).Keys
      ensures gestureButtonStates[gestureName] == state
      ensures forall n :: n in gestureButtonStates && n != gestureName ==> gestureButtonStates[n] == old(gestureButtonStates)[n]
    {
      gestureButtonStates := gestureButtonStates[gestureName := state];
    }
  }

  /** Get after Set on the same name returns the value just set, and every other name keeps its value. */
  method SetThenGet(input: GestureInputState, gestureName: Name, state: bool, other: Name) returns (got: bool, otherGot: bool)
    requires gestureName in input.gestureButtonStates && other in input.gestureButtonStates && other != gestureName
    modifies input
    ensures got == state
    ensures otherGot == old(input.gestureButtonStates)[other]
  {
    input.SetGestureButtonState(gestureName, state);
    got := input.GetGestureButtonState(gestureName);
    otherGot := input.GetGestureButtonState(other);
  }

  /** A freshly seeded table answers false for every gesture name in the database and holds no other name. */
  lemma SeededStatesAllReleased(gestures: seq<Gesture>, k: nat, n: Name)
    requires k < |gestures|
    ensures gestures[k].name in SeededButtonStates(gestures) && !SeededButtonStates(gestures)[gestures[k].name]
    ensures n in SeededButtonStates(gestures) ==> exists j :: 0 <= j < |gestures| && gestures[j].name == n
  {
  }
}

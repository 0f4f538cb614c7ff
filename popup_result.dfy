/** The State Popups bookkeeping of newly added states: the list an action
    result keeps of the states an action added, in the order they were first
    added and without repeats, and the battler hook that feeds it. */
module PopupResult {
  import opened Wrappers
  import opened PopupTags

  predicate NoDup(list: seq<int>) {
    forall i, j :: 0 <= i < j < |list| ==> list[i] != list[j]
  }

  /** `pushNewAddedState` on a list: `id` appended unless already present. */
  function Push(list: seq<int>, id: int): (r: seq<int>)
    ensures id in r
    ensures forall x :: x in r <==> x in list || x == id
    ensures |list| <= |r| && r[..|list|] == list
    ensures NoDup(list) ==> NoDup(r)
  {
    if id in list then list else list + [id]
  }

  /** The list after pushing `ids` one after another onto an empty list. */
  function Pushed(ids: seq<int>): seq<int> {
    if ids == [] then [] else Push(Pushed(ids[..|ids| - 1]), ids[|ids| - 1])
  }

  /** The index of the first occurrence of `x` in `ids`. */
  function FirstIndex(ids: seq<int>, x: int): (k: nat)
    requires x in ids
    ensures k < |ids| && ids[k] == x && x !in ids[..k]
  {
    if ids[0] == x then 0
    else
      var k := 1 + FirstIndex(ids[1..], x);
      assert ids[..k] == [ids[0]] + ids[1..][..k - 1];
      k
  }

  lemma FirstIndexPrefix(ids: seq<int>, y: int, x: int)
    requires x in ids
    ensures x in ids + [y] && FirstIndex(ids + [y], x) == FirstIndex(ids, x)
  {
    var k := FirstIndex(ids, x);
    var k' := FirstIndex(ids + [y], x);
    assert forall m :: 0 <= m < k ==> ids[m] != x;
    assert forall m :: 0 <= m < k' ==> (ids + [y])[m] != x;
    assert (ids + [y])[k] == x;
  }

  /** Pushing `ids` in turn keeps each id once, exactly the ids pushed, in
      the order of their first push. */
  lemma {:induction false} PushedFirstOccurrences(ids: seq<int>)
    ensures NoDup(Pushed(ids))
    ensures forall x :: x in Pushed(ids) <==> x in ids
    ensures forall i, j :: 0 <= i < j < |Pushed(ids)| ==>
              FirstIndex(ids, Pushed(ids)[i]) < FirstIndex(ids, Pushed(ids)[j])
  {
    if ids != [] {
      var front := ids[..|ids| - 1];
      var y := ids[|ids| - 1];
      assert ids == front + [y];
      PushedFirstOccurrences(front);
      var p := Pushed(front);
      var r := Pushed(ids);
      assert r == Push(p, y);
      forall x | x in p ensures FirstIndex(ids, x) == FirstIndex(front, x) {
        FirstIndexPrefix(front, y, x);
      }
      forall i, j | 0 <= i < j < |r| ensures FirstIndex(ids, r[i]) < FirstIndex(ids, r[j]) {
        assert r[i] == p[i];
        if j < |p| {
          assert r[j] == p[j];
        } else {
          assert r[j] == y && y !in front;
          assert FirstIndex(ids, y) == |front|;
        }
      }
    }
  }

  /** `$dataStates[id]`: an id outside the table reads as nothing. */
  function StateAt(dataStates: seq<Option<DataState>>, id: int): Option<DataState> {
    if 0 <= id < |dataStates| then dataStates[id] else None
  }

  /** `ids.map(id => $dataStates[id])`. */
  function StatesOf(dataStates: seq<Option<DataState>>, ids: seq<int>): (r: seq<Option<DataState>>)
    ensures |r| == |ids|
    ensures forall i :: 0 <= i < |ids| ==> r[i] == StateAt(dataStates, ids[i])
  {
    if ids == [] then [] else [StateAt(dataStates, ids[0])] + StatesOf(dataStates, ids[1..])
  }

  /** The plugin's part of an action result. */
  class ActionResult {
    var newAddedStates: seq<int>

    /** A fresh result starts cleared. */
    constructor ()
      ensures newAddedStates == []
    {
      newAddedStates := [];
    }

    /** `clear`: the new-added list is emptied. */
    method Clear()
      modifies this
      ensures newAddedStates == []
    {
      newAddedStates := [];
    }

    /** `isNewStateAdded`. */
    predicate IsNewStateAdded(stateId: int)
      reads this
    {
      stateId in newAddedStates
    }

    /** `pushNewAddedState`. */
    method PushNewAddedState(stateId: int)
      modifies this
      ensures newAddedStates == Push(old(newAddedStates), stateId)
    {
      if !IsNewStateAdded(stateId) {
        newAddedStates := newAddedStates + [stateId];
      }
    }

    /** `addedNewStateObjects`: one state per id, in the list's order. */
    function AddedNewStateObjects(dataStates: seq<Option<DataState>>): (r: seq<Option<DataState>>)
      reads this
      ensures |r| == |newAddedStates|
      ensures forall i :: 0 <= i < |r| ==> r[i] == StateAt(dataStates, newAddedStates[i])
    {
      StatesOf(dataStates, newAddedStates)
    }
  }

  /** The part of a battler the `addState` hook touches.  `forwarded` records
      the calls passed on to the engine's own `addState`. */
  class Battler {
    const result: ActionResult
    var forwarded: seq<int>

    constructor (result: ActionResult)
      ensures this.result == result && forwarded == []
    {
      this.result := result;
      forwarded := [];
    }

    /** `addState`: the id is recorded as newly added when the state can be
        added and is not already on the battler; the engine's `addState`
        runs in every case.  `addable` and `affected` are the engine's
        `isStateAddable` and `isStateAffected` answers. */
    method AddState(stateId: int, addable: bool, affected: bool)
      modifies this, result
      ensures result.newAddedStates
              == if addable && !affected then Push(old(result.newAddedStates), stateId)
                 else old(result.newAddedStates)
      ensures forwarded == old(forwarded) + [stateId]
    {
      if addable && !affected {
        result.PushNewAddedState(stateId);
      }
      forwarded := forwarded + [stateId];
    }
  }
}

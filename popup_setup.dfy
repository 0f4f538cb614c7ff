/** The State Popups part of a damage sprite's setup: after the engine's own
    setup, one popup per newly added state, removed state, buff, debuff and
    removed buff, in that order, each followed by a shift of the popup
    position. */
module PopupSetup {
  import opened Wrappers
  import opened Text
  import opened PopupTags
  import opened PopupResult

  /** How a popup looks: everything of its information but the text. */
  datatype Look = Look(x: string, y: string, color: string, outline: string,
                       duration: Option<int>, animations: seq<string>,
                       flashColor: seq<int>, flashDuration: Option<int>)

  function StateLook(info: PopupInfo): Look {
    Look(info.x, info.y, info.color, info.outline, info.duration,
         info.animations, info.flashColor, info.flashDuration)
  }

  /** The popup information of one parameter's buffs: a fixed text for a
      buff, a debuff and a removed buff, and the look all three share. */
  datatype BuffInfo = BuffInfo(posText: string, negText: string, remText: string, look: Look)

  /** The parameters 0 to 7 each have their buff information. */
  const BuffCount: nat := 8

  datatype BuffKind = Raised | Lowered | Cleared

  /** What the setup does to the sprite: `createSpecialStateInfo` with a
      text and a look, or `incrementSpecial` with the customizer's shift. */
  datatype Event = Popup(text: string, look: Look) | Shift(dx: int, dy: int)

  /** A state's popup text: its add or remove template with the first
      placeholder replaced by its name. */
  function StateText(state: DataState, added: bool): string
    requires state.popupInfo.Some?
  {
    var info := state.popupInfo.value;
    ReplaceFirst(if added then info.addText else info.remText, state.name)
  }

  function StatePopup(state: DataState, added: bool): Event
    requires state.popupInfo.Some?
  {
    Popup(StateText(state, added), StateLook(state.popupInfo.value))
  }

  /** A buff's popup text: the fixed text of its kind. */
  function BuffText(buff: BuffInfo, kind: BuffKind): string {
    match kind
    case Raised => buff.posText
    case Lowered => buff.negText
    case Cleared => buff.remText
  }

  function BuffPopup(buff: BuffInfo, kind: BuffKind): Event {
    Popup(BuffText(buff, kind), buff.look)
  }

  /** The events for `popups`: each popup, then a shift. */
  function Emitted(popups: seq<Event>, dx: int, dy: int): (r: seq<Event>)
    ensures |r| == 2 * |popups|
  {
    if popups == [] then [] else [popups[0], Shift(dx, dy)] + Emitted(popups[1..], dx, dy)
  }

  /** The events of consecutive runs of popups are those of each run, one
      after the other. */
  lemma {:induction false} EmittedAppend(a: seq<Event>, b: seq<Event>, dx: int, dy: int)
    ensures Emitted(a + b, dx, dy) == Emitted(a, dx, dy) + Emitted(b, dx, dy)
  {
    if a == [] {
      assert a + b == b;
    } else {
      assert (a + b)[0] == a[0];
      assert (a + b)[1..] == a[1..] + b;
      EmittedAppend(a[1..], b, dx, dy);
    }
  }

  /** Every popup is followed by exactly one shift: the events alternate,
      the `k`-th popup in the `2k`-th place. */
  lemma {:induction false} EmittedShape(popups: seq<Event>, dx: int, dy: int)
    ensures forall k :: 0 <= k < |popups| ==>
              Emitted(popups, dx, dy)[2 * k] == popups[k]
              && Emitted(popups, dx, dy)[2 * k + 1] == Shift(dx, dy)
  {
    if popups != [] {
      EmittedShape(popups[1..], dx, dy);
      var r := Emitted(popups, dx, dy);
      var rest := Emitted(popups[1..], dx, dy);
      forall k | 1 <= k < |popups|
        ensures r[2 * k] == popups[k] && r[2 * k + 1] == Shift(dx, dy)
      {
        assert popups[1..][k - 1] == popups[k];
        assert r[2 * k] == rest[2 * (k - 1)];
        assert r[2 * k + 1] == rest[2 * (k - 1) + 1];
      }
    }
  }

  /** The states have been loaded: each is present with its popup
      information. */
  predicate Prepared(states: seq<Option<DataState>>) {
    forall i :: 0 <= i < |states| ==> states[i].Some? && states[i].value.popupInfo.Some?
  }

  predicate InRange(ids: seq<int>, buffInfo: seq<BuffInfo>) {
    forall i :: 0 <= i < |ids| ==> 0 <= ids[i] < |buffInfo|
  }

  /** The popups for the first `n` of a list of states, added or removed. */
  function StatePopupsTo(states: seq<Option<DataState>>, added: bool, n: nat): (r: seq<Event>)
    requires n <= |states| && Prepared(states)
    ensures |r| == n
  {
    if n == 0 then [] else StatePopupsTo(states, added, n - 1) + [StatePopup(states[n - 1].value, added)]
  }

  function StatePopups(states: seq<Option<DataState>>, added: bool): seq<Event>
    requires Prepared(states)
  {
    StatePopupsTo(states, added, |states|)
  }

  /** The popups for the first `n` of a list of parameter ids of one buff
      kind. */
  function BuffPopupsTo(ids: seq<int>, buffInfo: seq<BuffInfo>, kind: BuffKind, n: nat): (r: seq<Event>)
    requires n <= |ids| && InRange(ids, buffInfo)
    ensures |r| == n
  {
    if n == 0 then [] else BuffPopupsTo(ids, buffInfo, kind, n - 1) + [BuffPopup(buffInfo[ids[n - 1]], kind)]
  }

  function BuffPopups(ids: seq<int>, buffInfo: seq<BuffInfo>, kind: BuffKind): seq<Event>
    requires InRange(ids, buffInfo)
  {
    BuffPopupsTo(ids, buffInfo, kind, |ids|)
  }

  /** All the popups of one setup, in the order of the five loops. */
  function Popups(added: seq<Option<DataState>>, removed: seq<Option<DataState>>,
                  buffs: seq<int>, debuffs: seq<int>, cleared: seq<int>,
                  buffInfo: seq<BuffInfo>): seq<Event>
    requires Prepared(added) && Prepared(removed)
    requires InRange(buffs, buffInfo) && InRange(debuffs, buffInfo) && InRange(cleared, buffInfo)
  {
    StatePopups(added, true) + StatePopups(removed, false) + BuffPopups(buffs, buffInfo, Raised)
    + BuffPopups(debuffs, buffInfo, Lowered) + BuffPopups(cleared, buffInfo, Cleared)
  }

  /** The `i`-th popup of a list of states is that state's. */
  lemma {:induction false} StatePopupsAt(states: seq<Option<DataState>>, added: bool, n: nat, i: nat)
    requires i < n <= |states| && Prepared(states)
    ensures StatePopupsTo(states, added, n)[i] == StatePopup(states[i].value, added)
  {
    if i < n - 1 {
      StatePopupsAt(states, added, n - 1, i);
    }
  }

  /** The `i`-th popup of a list of parameter ids is that parameter's. */
  lemma {:induction false} BuffPopupsAt(ids: seq<int>, buffInfo: seq<BuffInfo>, kind: BuffKind, n: nat, i: nat)
    requires i < n <= |ids| && InRange(ids, buffInfo)
    ensures BuffPopupsTo(ids, buffInfo, kind, n)[i] == BuffPopup(buffInfo[ids[i]], kind)
  {
    if i < n - 1 {
      BuffPopupsAt(ids, buffInfo, kind, n - 1, i);
    }
  }

  /** One more popup gives its event and a shift after the others. */
  lemma EmittedSnoc(done: seq<Event>, p: Event, dx: int, dy: int)
    ensures Emitted(done + [p], dx, dy) == Emitted(done, dx, dy) + [p, Shift(dx, dy)]
  {
    EmittedAppend(done, [p], dx, dy);
    assert [p][1..] == [];
  }

  /** The events of a setup: first every added state's popup, then every
      removed state's, then the buffs', the debuffs' and the removed buffs',
      each group in its list's order and each popup followed by a shift. */
  lemma SetupOrder(added: seq<Option<DataState>>, removed: seq<Option<DataState>>,
                   buffs: seq<int>, debuffs: seq<int>, cleared: seq<int>,
                   buffInfo: seq<BuffInfo>, dx: int, dy: int)
    requires Prepared(added) && Prepared(removed)
    requires InRange(buffs, buffInfo) && InRange(debuffs, buffInfo) && InRange(cleared, buffInfo)
    ensures Emitted(Popups(added, removed, buffs, debuffs, cleared, buffInfo), dx, dy)
            == Emitted(StatePopups(added, true), dx, dy)
               + Emitted(StatePopups(removed, false), dx, dy)
               + Emitted(BuffPopups(buffs, buffInfo, Raised), dx, dy)
               + Emitted(BuffPopups(debuffs, buffInfo, Lowered), dx, dy)
               + Emitted(BuffPopups(cleared, buffInfo, Cleared), dx, dy)
  {
    var a := StatePopups(added, true);
    var b := StatePopups(removed, false);
    var c := BuffPopups(buffs, buffInfo, Raised);
    var d := BuffPopups(debuffs, buffInfo, Lowered);
    var e := BuffPopups(cleared, buffInfo, Cleared);
    EmittedAppend(a, b, dx, dy);
    EmittedAppend(a + b, c, dx, dy);
    EmittedAppend(a + b + c, d, dx, dy);
    EmittedAppend(a + b + c + d, e, dx, dy);
  }

  /** The setup's events open with the added states' popups, the `k`-th
      added state's popup in place `2k`, each followed by its shift. */
  lemma AddedStatesFirst(added: seq<Option<DataState>>, removed: seq<Option<DataState>>,
                         buffs: seq<int>, debuffs: seq<int>, cleared: seq<int>,
                         buffInfo: seq<BuffInfo>, dx: int, dy: int)
    requires Prepared(added) && Prepared(removed)
    requires InRange(buffs, buffInfo) && InRange(debuffs, buffInfo) && InRange(cleared, buffInfo)
    ensures forall k :: 0 <= k < |added| ==>
              Emitted(Popups(added, removed, buffs, debuffs, cleared, buffInfo), dx, dy)[2 * k]
              == StatePopup(added[k].value, true)
              && Emitted(Popups(added, removed, buffs, debuffs, cleared, buffInfo), dx, dy)[2 * k + 1]
              == Shift(dx, dy)
  {
    var p := Popups(added, removed, buffs, debuffs, cleared, buffInfo);
    var a := StatePopups(added, true);
    var rest := StatePopups(removed, false) + BuffPopups(buffs, buffInfo, Raised)
                + BuffPopups(debuffs, buffInfo, Lowered) + BuffPopups(cleared, buffInfo, Cleared);
    assert p == a + rest;
    EmittedShape(p, dx, dy);
    forall k | 0 <= k < |added|
      ensures Emitted(p, dx, dy)[2 * k] == StatePopup(added[k].value, true)
    {
      StatePopupsAt(added, true, |added|, k);
      assert p[k] == a[k];
    }
  }

  /** A state's popup names the state where its template has the
      placeholder: a template `a%1b`, with no placeholder in `a`, gives
      `a`, the name, then `b` (a later `%1` in `b` stays). */
  lemma StatePopupText(state: DataState, added: bool, a: string, b: string)
    requires state.popupInfo.Some?
    requires (if added then state.popupInfo.value.addText else state.popupInfo.value.remText)
             == a + Placeholder + b
    requires !Contains(a, Placeholder) && '$' !in state.name
    ensures StateText(state, added) == a + state.name + b
  {
    ReplaceFirstSplit(a, b, state.name);
  }

  /** A template without the placeholder is shown as it is. */
  lemma StatePopupPlain(state: DataState, added: bool)
    requires state.popupInfo.Some?
    requires !Contains(if added then state.popupInfo.value.addText else state.popupInfo.value.remText,
                       Placeholder)
    ensures StateText(state, added)
            == if added then state.popupInfo.value.addText else state.popupInfo.value.remText
  {
    var info := state.popupInfo.value;
    ReplaceFirstNone(if added then info.addText else info.remText, state.name);
  }

  lemma Regroup(e: seq<Event>, a: seq<Event>, b: seq<Event>, c: seq<Event>, d: seq<Event>, f: seq<Event>)
    ensures e + a + b + c + d + f == e + (a + b + c + d + f)
  {
  }

  /** The sprite's side of a setup: the popups it created and the shifts it
      applied, in order. */
  class DamageSprite {
    var events: seq<Event>

    constructor ()
      ensures events == []
    {
      events := [];
    }

    /** `createSpecialStateInfo`. */
    method CreateSpecialStateInfo(text: string, look: Look)
      modifies this
      ensures events == old(events) + [Popup(text, look)]
    {
      events := events + [Popup(text, look)];
    }

    /** `incrementSpecial`. */
    method IncrementSpecial(dx: int, dy: int)
      modifies this
      ensures events == old(events) + [Shift(dx, dy)]
    {
      events := events + [Shift(dx, dy)];
    }

    /** One turn of the loop over added or removed states. */
    method EmitState(state: DataState, added: bool, dx: int, dy: int)
      requires state.popupInfo.Some?
      modifies this
      ensures events == old(events) + [StatePopup(state, added), Shift(dx, dy)]
    {
      var info := state.popupInfo.value;
      var text := ReplaceFirst(if added then info.addText else info.remText, state.name);
      CreateSpecialStateInfo(text, StateLook(info));
      IncrementSpecial(dx, dy);
    }

    /** The loop over added or removed states. */
    method EmitStates(states: seq<Option<DataState>>, added: bool, dx: int, dy: int)
      requires Prepared(states)
      modifies this
      ensures events == old(events) + Emitted(StatePopups(states, added), dx, dy)
    {
      ghost var e0 := events;
      for i := 0 to |states|
        invariant events == e0 + Emitted(StatePopupsTo(states, added, i), dx, dy)
      {
        EmitState(states[i].value, added, dx, dy);
        EmittedSnoc(StatePopupsTo(states, added, i), StatePopup(states[i].value, added), dx, dy);
      }
    }

    /** One turn of the loop over the parameter ids of one buff kind. */
    method EmitBuff(buff: BuffInfo, kind: BuffKind, dx: int, dy: int)
      modifies this
      ensures events == old(events) + [BuffPopup(buff, kind), Shift(dx, dy)]
    {
      var text := match kind case Raised => buff.posText case Lowered => buff.negText
                              case Cleared => buff.remText;
      CreateSpecialStateInfo(text, buff.look);
      IncrementSpecial(dx, dy);
    }

    /** The loop over the parameter ids of one buff kind. */
    method EmitBuffs(ids: seq<int>, buffInfo: seq<BuffInfo>, kind: BuffKind, dx: int, dy: int)
      requires InRange(ids, buffInfo)
      modifies this
      ensures events == old(events) + Emitted(BuffPopups(ids, buffInfo, kind), dx, dy)
    {
      ghost var e0 := events;
      for i := 0 to |ids|
        invariant events == e0 + Emitted(BuffPopupsTo(ids, buffInfo, kind, i), dx, dy)
      {
        EmitBuff(buffInfo[ids[i]], kind, dx, dy);
        EmittedSnoc(BuffPopupsTo(ids, buffInfo, kind, i), BuffPopup(buffInfo[ids[i]], kind), dx, dy);
      }
    }

    /** `Sprite_Damage.setup` after the engine's own setup.  `condition` is
        the customizer's popup condition, `statusAffected` the result's
        `isStatusAffected`, `removed` its removed state objects and the three
        id lists its added buffs, added debuffs and removed buffs; `dx` and
        `dy` are the customizer's shift.  Nothing is emitted unless both
        hold. */
    method Setup(condition: bool, statusAffected: bool, result: ActionResult,
                 dataStates: seq<Option<DataState>>, removed: seq<Option<DataState>>,
                 buffs: seq<int>, debuffs: seq<int>, cleared: seq<int>,
                 buffInfo: seq<BuffInfo>, dx: int, dy: int)
      requires |buffInfo| == BuffCount
      requires condition && statusAffected ==>
                 Prepared(result.AddedNewStateObjects(dataStates)) && Prepared(removed)
                 && InRange(buffs, buffInfo) && InRange(debuffs, buffInfo) && InRange(cleared, buffInfo)
      modifies this
      ensures condition && statusAffected ==>
                events == old(events) + Emitted(Popups(result.AddedNewStateObjects(dataStates), removed,
                                                        buffs, debuffs, cleared, buffInfo), dx, dy)
      ensures !(condition && statusAffected) ==> events == old(events)
    {
      if !condition {
        return;
      }
      if statusAffected {
        var added := result.AddedNewStateObjects(dataStates);
        ghost var e0 := events;
        EmitStates(added, true, dx, dy);
        EmitStates(removed, false, dx, dy);
        EmitBuffs(buffs, buffInfo, Raised, dx, dy);
        EmitBuffs(debuffs, buffInfo, Lowered, dx, dy);
        EmitBuffs(cleared, buffInfo, Cleared, dx, dy);
        SetupOrder(added, removed, buffs, debuffs, cleared, buffInfo, dx, dy);
        Regroup(e0, Emitted(StatePopups(added, true), dx, dy), Emitted(StatePopups(removed, false), dx, dy),
                Emitted(BuffPopups(buffs, buffInfo, Raised), dx, dy),
                Emitted(BuffPopups(debuffs, buffInfo, Lowered), dx, dy),
                Emitted(BuffPopups(cleared, buffInfo, Cleared), dx, dy));
      }
    }
  }
}
